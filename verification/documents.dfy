/** Documents exchanged between the machines. Their bytes are never inspected here. */
module Documents {

  /** A byte buffer (`Uint8Array`). */
  type Bytes = seq<bv8>

  /** A browser `File` chosen by the user. */
  datatype File = File(name: string, content: Bytes)
}
