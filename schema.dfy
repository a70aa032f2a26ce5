/** Column types shared by the server's tables. */
module Schema {

  /** A primary or foreign key: a UUID as text. */
  type Id = string

  /** A TIMESTAMP column, as a count of time units. */
  type Timestamp = int
}
