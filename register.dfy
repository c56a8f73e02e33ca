/** The Register screen's form logic: choosing the transaction type, opening and closing
    the category picker, and validating a submission before building the record. */
module Register {

  /** The key and label of the category button before any category is chosen. */
  const PlaceholderKey: string := "category"
  const PlaceholderName: string := "Categoria"

  /** The two alerts a rejected submission shows, in the order they are checked. */
  const SelectTypeMessage: string := "Selecione o tipo de transação"
  const SelectCategoryMessage: string := "Selecione a categoria"

  datatype Category = Category(key: string, name: string)

  /** The two buttons of the type selector. */
  datatype TransactionKind = Up | Down

  /** The values the form hands to the submit handler. */
  datatype FormData = FormData(name: string, amount: string)

  /** The record built from an accepted submission. */
  datatype TransactionDraft = TransactionDraft(
    name: string, amount: string, transactionType: string, category: string)

  /** What a submission does: show an alert, or log the record it built. */
  datatype SubmitResult = Alert(message: string) | Logged(record: TransactionDraft)

  function KindName(kind: TransactionKind): string {
    match kind
    case Up => "up"
    case Down => "down"
  }

  class RegisterScreen {
    var transactionType: string
    var categoryModalOpen: bool
    var category: Category

    constructor ()
      ensures transactionType == "" && !categoryModalOpen
      ensures category == Category(PlaceholderKey, PlaceholderName)
    {
      transactionType := "";
      categoryModalOpen := false;
      category := Category(PlaceholderKey, PlaceholderName);
    }

    method HandleTransactionsTypeSelect(kind: TransactionKind)
      modifies this`transactionType
      ensures transactionType == "up" || transactionType == "down"
      ensures transactionType == "up" <==> kind == Up
      ensures category == old(category) && categoryModalOpen == old(categoryModalOpen)
    {
      transactionType := KindName(kind);
    }

    method HandleCloseSelectCategoryModal()
      modifies this`categoryModalOpen
      ensures !categoryModalOpen
      ensures transactionType == old(transactionType) && category == old(category)
    {
      categoryModalOpen := false;
    }

    method HandleOpenSelectCategoryModal()
      modifies this`categoryModalOpen
      ensures categoryModalOpen
      ensures transactionType == old(transactionType) && category == old(category)
    {
      categoryModalOpen := true;
    }

    /** The setter the category picker receives. */
    method SetCategory(c: Category)
      modifies this`category
      ensures category == c
      ensures transactionType == old(transactionType) && categoryModalOpen == old(categoryModalOpen)
    {
      category := c;
    }

    /** Validation in order (type first, then category), then the record. Reading the
        state is all it does: no field changes and nothing is stored. */
    function HandleSubmitRegister(form: FormData): (r: SubmitResult)
      reads this
      ensures r.Logged? <==> transactionType != "" && category.key != PlaceholderKey
      ensures transactionType == "" ==> r == Alert(SelectTypeMessage)
      ensures transactionType != "" && category.key == PlaceholderKey ==> r == Alert(SelectCategoryMessage)
      ensures r.Logged? ==> r.record.name == form.name && r.record.amount == form.amount
      ensures r.Logged? ==> r.record.transactionType == transactionType && r.record.category == category.key
    {
      if transactionType == "" then Alert(SelectTypeMessage)
      else if category.key == PlaceholderKey then Alert(SelectCategoryMessage)
      else Logged(TransactionDraft(form.name, form.amount, transactionType, category.key))
    }
  }

  /** On a fresh screen a submission is refused with the type alert, whatever the form. */
  method SubmitOnFreshScreen(form: FormData) returns (r: SubmitResult)
    ensures r == Alert(SelectTypeMessage)
  {
    var screen := new RegisterScreen();
    r := screen.HandleSubmitRegister(form);
  }

  /** Choosing a type but no category gets the category alert. */
  method SubmitWithoutCategory(kind: TransactionKind, form: FormData) returns (r: SubmitResult)
    ensures r == Alert(SelectCategoryMessage)
  {
    var screen := new RegisterScreen();
    screen.HandleOpenSelectCategoryModal();
    screen.HandleCloseSelectCategoryModal();
    screen.HandleTransactionsTypeSelect(kind);
    r := screen.HandleSubmitRegister(form);
  }

  /** Choosing a category but no type still gets the type alert: the type is checked first. */
  method SubmitWithoutType(c: Category, form: FormData) returns (r: SubmitResult)
    ensures r == Alert(SelectTypeMessage)
  {
    var screen := new RegisterScreen();
    screen.SetCategory(c);
    r := screen.HandleSubmitRegister(form);
  }

  /** With a type and a real category chosen, the logged record carries the form's name
      and amount, the chosen type's name and the category's key. */
  method SubmitComplete(kind: TransactionKind, c: Category, form: FormData) returns (r: SubmitResult)
    requires c.key != PlaceholderKey
    ensures r == Logged(TransactionDraft(form.name, form.amount, KindName(kind), c.key))
    ensures r.record.transactionType == "up" || r.record.transactionType == "down"
  {
    var screen := new RegisterScreen();
    screen.HandleTransactionsTypeSelect(kind);
    screen.SetCategory(c);
    r := screen.HandleSubmitRegister(form);
  }
}
