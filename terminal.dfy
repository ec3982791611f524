/** The plain value types of the terminal adapter. Everything the adapter does
    with the real terminal (raw mode, queued escape sequences, flushing) is
    outside this model. */
module Terminal {
  import opened Num

  /** A window size in cells. */
  datatype Size = Size(width: usize, height: usize)

  /** A cell address: column and row. */
  datatype Position = Position(col: usize, row: usize)

  /** The size used when the terminal cannot report one. */
  const DEFAULT_SIZE: Size := Size(0, 0)

  /** An I/O failure reported by the terminal or the file system. */
  datatype IoError = IoError(message: string)
}
