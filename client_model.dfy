/** The `Client` model: a schema-only collection whose documents carry a
    company name, a contact name and surname, a unique email and a photo.
    It has no password fields. */
module ClientModel {
  import opened Js

  type ClientId = string

  datatype ClientRecord = ClientRecord(
    id: ClientId,
    companyName: string,
    name: string,
    surname: string,
    email: string,
    photo: Option<string>)
}
