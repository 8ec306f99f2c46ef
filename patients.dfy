/** The patient record the list, detail and edit screens pass around. */
module Patients {
  import opened Wrappers

  /** Fields the source may leave `undefined` are options; `age` is a number
      whose JavaScript truthiness matters (0 is falsy). */
  datatype Patient = Patient(
    id: int,
    name: string,
    age: Option<int>,
    gender: string,
    admissionDate: string,
    condition: string,
    phone: string,
    email: Option<string>,
    address: Option<string>,
    emergencyContactPhone: Option<string>,
    medical: Option<string>,
    allergy: Option<string>,
    bloodType: Option<string>)
}
