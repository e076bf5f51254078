/** Values shared by every part of the webcam updater: an optional value
    (Python's `None`) and the exceptions the program raises, as data. */
module Outcomes {

  datatype Option<+T> = None | Some(value: T)

  /** The Python exceptions that can leave one of the modelled operations. */
  datatype Exception =
    | CalledProcessError(code: int)  // gm exited with a non-zero code
    | URLError                        // urlretrieve could not fetch the image
    | SameFileError(path: string)     // copyfile with source and target the same path
    | FileNotFoundError(path: string) // unlink, getsize or open of a missing path
    | FtpError                        // the FTP server refused a connection or a STOR
    | KeyError(key: string)           // a required key is missing from a config section
    | AttributeError(attr: string)    // attribute lookup on an object that lacks it
    | ValueError                      // time.sleep given a negative duration

  /** How a Python call ended: it returned, or it raised `e`. */
  datatype Status = Ok | Raised(e: Exception)
}
