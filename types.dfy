/** The records shared by the dashboard (types.ts). */
module Types {

  /** An optional TypeScript property (`field?: string`): absent or present. */
  datatype Option<T> = None | Some(value: T)

  /** The signed-in user and their single contract (types.ts:3-13). */
  datatype UserAccount = UserAccount(
    name: string,
    price: string,
    benefit: string,
    expiryMinutes: int,
    phoneNumber: Option<string>,
    agendaNumber: Option<string>,
    dob: Option<string>,
    city: Option<string>,
    profileImage: Option<string>)

  /** The closed set of step states (types.ts:18). */
  datatype Status = Done | Pending | Failed

  /** One row of the five-stage contract pipeline (types.ts:15-20). */
  datatype ContractStep = ContractStep(stepLabel: string, description: string, status: Status, key: string)

  /** The login screen's controlled inputs (App.tsx:18, 349-355). */
  datatype LoginForm = LoginForm(name: string, dob: string, phone: string, password: string, city: string)

  /** The contract form's controlled inputs (App.tsx:153, 158). */
  datatype ContractFormData = ContractFormData(agenda: string, price: string, benefit: string)
}
