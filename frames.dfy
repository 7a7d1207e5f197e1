/**
 * The response a query produces: zero or more frames and an optional error.
 * A frame is a named list of fields; a field is a named column of times,
 * floats or strings.
 */
module Frames {
  import opened Wrappers
  import opened Numeric

  /** The errors a query can attach to its response. */
  datatype Error =
    | UnmarshalError(msg: string)      // the query's JSON could not be decoded
    | StoreError(msg: string)          // a metadata, count or select statement failed
    | ScanError                        // a row's value could not be scanned
    | UnknownUnitConversion(code: int)
    | UnknownTransform(code: int)
    | RowQueryError(msg: string)       // the result stream reported an error after iteration

  datatype Column = Times(times: seq<real>) | Floats(floats: seq<Num>) | Strings(strings: seq<string>)

  datatype Field = Field(name: string, column: Column)

  datatype Frame = Frame(name: string, refId: string, fields: seq<Field>)

  datatype Response = Response(frames: seq<Frame>, error: Option<Error>)

  function Length(c: Column): nat {
    match c
    case Times(t) => |t|
    case Floats(f) => |f|
    case Strings(s) => |s|
  }

  /** The frame sent when there is nothing else to send: one time field holding the window's two endpoints. */
  function EndpointFrame(from: real, to: real): Frame {
    Frame("response", "", [Field("time", Times([from, to]))])
  }

  /** The frame of a successful query: the unnamed value field, then the time field. */
  function DataFrame(refId: string, name: string, values: Column, times: seq<real>): Frame
    requires !values.Times?
  {
    Frame(name, refId, [Field("", values), Field("time", Times(times))])
  }
}
