/** The error taxonomy of the ledger (src/error.rs). */
module Errors {

  datatype LedgerError =
    | TransactionError(message: string)
    | CryptoError(message: string)
    | HardwareError(message: string)
}
