/** All table groups together. A transaction is a function from one database to
    the next, or an error that leaves the database as it was. */
module Database {
  import opened GateTable
  import opened QueueTable
  import opened SalesTable
  import opened StockTable
  import opened TillTable
  import opened WalletTable

  datatype Db = Db(gate: Gate, sales: Sales, stock: Stock, queue: Queue, till: Till, wallets: Wallets)
}
