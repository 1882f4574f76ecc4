/** The records the pages pass around (the shapes declared in
    `types/index.ts`), restricted to the fields the modelled logic reads. */
module Types {
  import opened Wrappers
  import opened JsValues

  /** The three roles a page can allow. */
  datatype Role = Admin | Cashier | Storekeeper

  /** The role string the server and the session store use for a role. */
  function RoleName(r: Role): string {
    match r
    case Admin => "admin"
    case Cashier => "cashier"
    case Storekeeper => "storekeeper"
  }

  /** `allowedRoles.includes(role)` for a role string. */
  predicate RoleAllowed(allowed: seq<Role>, role: string) {
    exists i :: 0 <= i < |allowed| && RoleName(allowed[i]) == role
  }

  /** The session's user. The role is kept as the string the server sent:
      nothing on the client checks that it is one of the three roles. */
  datatype User = User(id: int, name: string, email: string, role: string, avatarUrl: Option<string>)

  /** A customer as the customer mapper produces it. */
  datatype Customer = Customer(
    clientId: Num,
    clientFirstName: string,
    clientLastName: string,
    email: Option<string>,
    contactNumber: Option<string>,
    address: Option<string>)

  datatype ProductBrand = ProductBrand(productBrandId: Num, productBrandName: string)

  datatype ProductCategory = ProductCategory(productCategoryId: Num, productCategoryName: string)

  /** One receiving batch (GRN item) attached to a product. */
  datatype GrnItem = GrnItem(
    grnItemsId: Num,
    costPrice: Option<Num>,
    sellingPrice: Option<Num>,
    orderedQty: Option<Num>,
    quantity: Option<Num>)

  /** A product row as the product mapper produces it (`SearchProductResult`).
      `productQty` is `None` for `null`; brand and category are the raw JSON
      objects the server sent, or `null`. */
  datatype Product = Product(
    productId: Num,
    productName: string,
    productNumber: string,
    productLocation: string,
    productDetails: Option<string>,
    productQty: Option<Num>,
    productType: string,
    productCost: Num,
    productSelling: Num,
    latestPrice: Option<Num>,
    availableQty: Num,
    grnItemsId: Num,
    productBrand: Json,
    productCategory: Json,
    grnData: Option<seq<GrnItem>>)

  datatype Supplier = Supplier(
    supplierId: Num,
    supplierName: string,
    supplierContactNumber: string,
    supplierAddress: string)
}
