/** The record type of the service (internal/app/datatype.go). */
module App {

  /** One subject row. Timestamps are the text the store returns; the
      layers modelled here only pass subjects through. */
  datatype Subject = Subject(
    id: int,
    comment: string,
    dateCreate: string,
    description: string,
    lastTimeUpdate: string,
    name: string,
    subjectType: string,
    parentId: int)
}
