/**
 * The analyzer's shared vocabulary: file types, the structure tree the parsers
 * build (StructureElement), the exceptions the pipeline throws, and the type
 * inference the CSV parser delegates to.
 */
module Model {
  import opened Wrappers

  /** The file types the analyzer distinguishes. */
  datatype FileType = CSV | XML | JSON | EXCEL | FIXED_LENGTH | VARIABLE_LENGTH {
    /** Enum.name(). */
    function Name(): string {
      match this
      case CSV => "CSV"
      case XML => "XML"
      case JSON => "JSON"
      case EXCEL => "EXCEL"
      case FIXED_LENGTH => "FIXED_LENGTH"
      case VARIABLE_LENGTH => "VARIABLE_LENGTH"
    }
  }

  /**
   * A StructureElement: a named, typed node of the structure tree. Only the
   * number of attributes is ever observed, so they are kept as names.
   */
  datatype Node = Node(name: string, typ: string, isArray: bool, children: seq<Node>, attributes: seq<string>)

  /** An element built with only a name and a type, as the CSV parser builds columns. */
  function Leaf(name: string, typ: string): Node {
    Node(name, typ, false, [], [])
  }

  /**
   * What a call can throw. AnalyzerException carries an error code and an
   * optional file type; the JDK exceptions carry their message.
   */
  datatype Exception =
    | AnalyzerException(code: string, fileType: Option<FileType>, message: string)
    | IllegalArgument(message: string)
    | UnsupportedOperation(message: string)
    | Runtime(message: string)

  /**
   * TypeInferenceUtil: the type name of one cell value, and the widening of
   * two type names. Neither is part of this model; every property about them
   * is stated relative to these two functions.
   */
  datatype Inference = Inference(inferType: string -> string, mergeTypes: (string, string) -> string)
}
