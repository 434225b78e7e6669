/** The entries of a connection table (kernel/connection.h). */
module Connections {

  /** The process and the channel a connection leads to. */
  datatype Connection = Connection(pid: nat, chid: nat)

  /** The pair `qnx_connection_table_retrieve` answers with when there is no connection. */
  const NO_CONNECTION := Connection(0, 0)

  /** A slot of a table: a null pointer or a connection. */
  datatype Slot = Empty | Used(conn: Connection)
}
