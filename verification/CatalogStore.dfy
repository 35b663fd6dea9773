/** The administrator's mutations of categories, products, bank accounts and provider
    accounts: each is admitted by its session, writes its row, and leaves. */
module CatalogStore {
  import opened Results
  import opened Database
  import opened GateTable
  import opened SalesTable

  /** The eleven mutations, with what the model keeps of their rows. A category is known
      by its products; provider accounts and the texts of every row are not kept. */
  datatype Edit =
    | CreateCategory
    | UpdateCategory
    | SetCategoryActive(products: set<nat>, active: bool)
    | CreateProduct(price: int, categoryActive: bool)
    | UpdateProduct(p: nat, price: int, categoryActive: bool)
    | SetProductActive(p: nat, active: bool)
    | CreateBank(environment: string)
    | UpdateBank(b: nat)
    | SetBankActive(b: nat, active: bool)
    | CreateProviderAccount(bank: nat, environment: string)
    | SetProviderAccountStatus

  /** The session state each mutation requires. */
  function SessionFor(edit: Edit): string {
    match edit
    case CreateCategory => "category.create"
    case UpdateCategory => "category.edit"
    case SetCategoryActive(_, _) => "category.toggle"
    case CreateProduct(_, _) => "product.create"
    case UpdateProduct(_, _, _) => "product.edit"
    case SetProductActive(_, _) => "product.toggle"
    case CreateBank(_) => "bank.create"
    case UpdateBank(_) => "bank.edit"
    case SetBankActive(_, _) => "bank.toggle"
    case CreateProviderAccount(_, _) => "provider.account.create"
    case SetProviderAccountStatus => "provider.account.toggle"
  }

  /** An empty environment is stored as production. */
  function StoredEnvironment(environment: string): string {
    if environment == "" then "production" else environment
  }

  /** Writes the row. New rows are active, and new products are kept in inventory. */
  function Apply(s: Sales, edit: Edit): Result<Sales> {
    match edit
    case SetCategoryActive(products, active) =>
      Ok(s.(products := seq(|s.products|, p requires 0 <= p < |s.products| =>
        if p in products then s.products[p].(categoryActive := active) else s.products[p])))
    case CreateProduct(price, categoryActive) =>
      Ok(s.(products := s.products + [Product(price, true, categoryActive, true)]))
    case UpdateProduct(p, price, categoryActive) =>
      if p >= |s.products| then Err(NotFound)
      else Ok(s.(products := s.products[p := s.products[p].(price := price, categoryActive := categoryActive)]))
    case SetProductActive(p, active) =>
      if p >= |s.products| then Err(NotFound)
      else if s.products[p].active == active then Err(StaleVersion)
      else Ok(s.(products := s.products[p := s.products[p].(active := active)]))
    case CreateBank(environment) => Ok(s.(banks := s.banks + [Bank(true, StoredEnvironment(environment))]))
    case UpdateBank(b) => if b >= |s.banks| then Err(BankAccountNotFound) else Ok(s)
    case SetBankActive(b, active) =>
      if b >= |s.banks| then Err(BankAccountNotFound)
      else if s.banks[b].active == active then Err(StaleVersion)
      else Ok(s.(banks := s.banks[b := s.banks[b].(active := active)]))
    case CreateProviderAccount(bank, environment) =>
      if bank >= |s.banks| || !s.banks[bank].active then Err(BankAccountInactive)
      else if s.banks[bank].environment != environment then Err(InvalidInput)
      else Ok(s)
    case _ => Ok(s)
  }

  function EditCatalog(db: Db, ticket: Ticket, update: nat, edit: Edit, now: int): Result<Db> {
    var admitted := AdmitToCatalog(db.gate, ticket, SessionFor(edit), now);
    :- admitted;
    var sales :- Apply(db.sales, edit);
    var gate :- Leave(db.gate, ticket, update, now);
    Ok(db.(sales := sales, gate := gate))
  }

  /** An edit commits if and only if its session admits it and can be left, the update
      is being processed, and its row can be written; then the session is spent and the
      update completed. */
  lemma EditIsExact(db: Db, ticket: Ticket, update: nat, edit: Edit, now: int)
    ensures EditCatalog(db, ticket, update, edit, now).Ok? <==>
              && Manages(db.gate, ticket.admin) && Live(db.gate, ticket, now)
              && db.gate.sessions[ticket.session].state == SessionFor(edit)
              && Processing(db.gate, update) && Apply(db.sales, edit).Ok?
    ensures EditCatalog(db, ticket, update, edit, now).Ok? ==>
              var db' := EditCatalog(db, ticket, update, edit, now).value;
              && db' == db.(sales := Apply(db.sales, edit).value, gate := db'.gate)
              && db'.gate == db.gate.(
                   sessions := db.gate.sessions[
                     ticket.session := Session(ticket.admin, SESSION_COMPLETED, now, ticket.version + 1)],
                   receipts := db.gate.receipts[update := ReceiptCompleted])
  {
  }
  /** The product a mutation names, and what it makes of it. */
  function EditedProduct(row: Product, p: nat, edit: Edit): Product {
    match edit
    case SetCategoryActive(products, active) => if p in products then row.(categoryActive := active) else row
    case UpdateProduct(q, price, categoryActive) =>
      if p == q then Product(price, row.active, categoryActive, row.fromInventory) else row
    case SetProductActive(q, active) => if p == q then row.(active := active) else row
    case _ => row
  }

  /** An edit writes the rows it names and no other: orders and customers never change,
      a switch only commits if it changes something, and nothing is written for a row
      that does not exist. */
  lemma EditedRows(s: Sales, edit: Edit)
    ensures Apply(s, edit).Ok? <==>
              && (edit.UpdateProduct? || edit.SetProductActive? ==> edit.p < |s.products|)
              && (edit.UpdateBank? || edit.SetBankActive? ==> edit.b < |s.banks|)
              && (edit.SetProductActive? ==> s.products[edit.p].active != edit.active)
              && (edit.SetBankActive? ==> s.banks[edit.b].active != edit.active)
              && (edit.CreateProviderAccount? ==>
                    && edit.bank < |s.banks| && s.banks[edit.bank].active
                    && s.banks[edit.bank].environment == edit.environment)
    ensures Apply(s, edit).Ok? ==>
              var s' := Apply(s, edit).value;
              var added := if edit.CreateProduct? then [Product(edit.price, true, edit.categoryActive, true)] else [];
              && s' == s.(products := s'.products, banks := s'.banks)
              && |s'.products| == |s.products| + |added| && s'.products[|s.products|..] == added
              && (forall p: nat :: p < |s.products| ==> s'.products[p] == EditedProduct(s.products[p], p, edit))
              && s'.banks == match edit
                 case CreateBank(environment) =>
                   s.banks + [Bank(true, if environment == "" then "production" else environment)]
                 case SetBankActive(b, active) => s.banks[b := Bank(active, s.banks[b].environment)]
                 case _ => s.banks
  {
  }
}
