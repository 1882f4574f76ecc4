/** The customers page: its sort state and sort handler, and the export
    projection. Its table, search box and reload step are those of
    `ListView`. */
module Customers {
  import opened Wrappers
  import opened Types
  import opened Api
  import Products

  datatype SortState = SortState(sortBy: string, sortOrder: string)

  /** The sort the page starts with. */
  const InitialSort: SortState := SortState("id", "asc")

  /** `handleSort(column, direction)`: a column without a `sortField`
      (or with an empty one) sorts by `id`. */
  function HandleSort(column: Products.Column, direction: string): (s: SortState)
    ensures s.sortOrder == direction
    ensures column.sortField.Some? && column.sortField.value != "" ==> s.sortBy == column.sortField.value
    ensures column.sortField.None? || column.sortField.value == "" ==> s.sortBy == InitialSort.sortBy
  {
    SortState(if column.sortField.Some? && column.sortField.value != "" then column.sortField.value else "id", direction)
  }

  /** Unlike the products page, the customers page never sorts by a
      selector: the two handlers agree exactly on columns that name a
      field. */
  lemma SortAgreesWithProducts(column: Products.Column, direction: string)
    ensures Products.HandleSort(column, direction).sortBy.Field?
      <==> HandleSort(column, direction).sortBy != "id" || column.sortField == Some("id")
  {
  }

  datatype ExportRow = ExportRow(firstName: string, lastName: string, address: string, contactNumber: string, email: string)

  function ExportRowOf(c: Customer): (row: ExportRow)
    ensures row.firstName == c.clientFirstName && row.lastName == c.clientLastName
    ensures row.address == c.address.GetOr("") && row.contactNumber == c.contactNumber.GetOr("")
    ensures row.email == c.email.GetOr("")
    ensures c.email.None? ==> row.email == ""
  {
    ExportRow(c.clientFirstName, c.clientLastName, c.address.GetOr(""), c.contactNumber.GetOr(""), c.email.GetOr(""))
  }
}
