/** The records of types.ts that the core passes around. */
module Domain {
  import opened Wrappers

  /** `'expense' | 'income' | 'transfer'`. */
  datatype TxType = Expense | Income | Transfer

  /** `'none' | 'monthly' | 'yearly'`. */
  datatype Recurrence = NoRecurrence | Monthly | Yearly

  /** A stored transaction (types.ts `Transaction`); the optional fields are
      `Option`s. */
  datatype Transaction = Transaction(
    id: string,
    description: string,
    amount: real,
    date: string,
    category: string,
    establishment: string,
    txType: Option<TxType>,
    recurrence: Option<Recurrence>,
    adjustmentRate: Option<real>)

  /** `Omit<Transaction, 'id'>`: what the app hands to the transaction store. */
  datatype NewTransaction = NewTransaction(
    description: string,
    amount: real,
    date: string,
    category: string,
    establishment: string,
    txType: Option<TxType>,
    recurrence: Option<Recurrence>,
    adjustmentRate: Option<real>)

  /** A savings goal (types.ts `Project`). */
  datatype Project = Project(
    id: string,
    name: string,
    targetAmount: real,
    currentAmount: real,
    icon: string)

  /** `Omit<Project, 'id'>`. */
  datatype NewProject = NewProject(
    name: string,
    targetAmount: real,
    currentAmount: real,
    icon: string)
}
