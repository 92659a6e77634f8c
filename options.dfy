/**
 The configuration of one csv2gff3 run and the outcomes a line can have.

 The command line is parsed once into a `Config` value that never changes
 during the run; every way the conversion can stop early is an `Error` tag.
 */
module Options {

  datatype Option<T> = None | Some(value: T)

  /** Why a run stops. */
  datatype Error =
    /** A configured column (index >= 0) of output slot `slot` is past the end
        of the record: an uncaught IndexError. */
    | IndexOutOfRange(slot: nat)
    /** A bounds index does not address a field of the record: the caught
        IndexError reported as "You must provide bounds for the feature". */
    | BoundsMissing
    /** A bound is not an integer: the caught ValueError reported as
        "Start and stop positions must be integers". */
    | NotInteger
    /** A line that is empty once stripped: its first character cannot be read. */
    | EmptyLine
    /** The empty string as delimiter: splitting on it raises ValueError. */
    | EmptyDelimiter
    /** Indexing the record with the attribute literal instead of the
        attribute column: the TypeError of the code as written. */
    | AttributeIndexNotInteger

  datatype Result<T> = Ok(value: T) | Err(error: Error)

  /**
   The parsed options. A column option is an index, negative meaning unset
   (the default is -1); a literal option is a string, the empty string
   meaning unset (an absent option and an empty one are both false in the
   tests that read them). `bounds` is the pair of start and end columns,
   which the tool cannot run without.
   */
  datatype Config = Config(
    delimiter: string,
    seqid: int, seqids: string,
    source: int, sources: string,
    featureType: int, types: string,
    bounds: (int, int),
    score: int,
    strand: int, strands: string, guessStrand: bool,
    phase: int, phases: string,
    attribute: int, attributes: string,
    attrName: string)

  /** The options as they are when only the bounds are given on the command line. */
  function DefaultConfig(start: int, end: int): Config
  {
    Config("\t", -1, "", -1, "", -1, "", (start, end), -1, -1, "", false, -1, "", -1, "", "")
  }
}
