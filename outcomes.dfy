/** Failure values of the reduction. Each Error names the Python exception that the
    measurement code raises at that point; nothing in the source catches them, so an
    Error ends the current run. */
module Outcomes {

  datatype Error =
    | ZeroDivision              // ZeroDivisionError: a VSWR pole, or a mean over no values
    | EmptyAxis                 // ValueError: nearest-frequency lookup over an empty axis
    | MissingKey(key: string)   // KeyError on the secondary parameters
    | UnknownCorner(corner: int) // KeyError on the calibration-corner table
    | IndexOutOfRange           // IndexError
    | MissingFile(state: nat)   // FileNotFoundError for a calibration file
    | MalformedRow(state: nat)  // ValueError: a calibration row without exactly 9 fields
    | MissingAttribute(name: string) // AttributeError: a field read before any assignment
    | BadCurrents               // ValueError/TypeError: the current readings are not a pair
    | UndefinedName(name: string) // NameError inside the report template

  datatype Option<+T> = None | Some(value: T) {
    function GetOr(default: T): T {
      match this
      case Some(v) => v
      case None => default
    }
  }

  datatype Result<+T> = Ok(value: T) | Err(error: Error)

  /** Outcome of a step that only changes state: it finished, or it raised. */
  datatype Status = Done | Raised(error: Error)
}
