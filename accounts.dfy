/** The account data the management resources and reports consult. */
module Accounts {
  datatype Role = SuperUser | Admin | CompanyUser | FinanceUser

  /** A user; `companyId` is 0 for a user attached to no company. */
  datatype User = User(id: int, role: Role, companyId: int)
}
