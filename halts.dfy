/**
 * The conditions on which loading the input halts the whole run (`dieWithError`).
 * The ZIP layer's own halt, a file that cannot be opened as an archive, is not
 * among them: the archive is an input of the model.
 */
module Halts {

  datatype Halt =
    | MissingFileName              // no score file was given on the command line
    | MissingFilePointer           // META-INF/container.xml absent or not valid XML
    | MissingScoreFile             // no rootfile names the main .mscx score
    | UnreadableScore(path: string) // the named score is absent from the archive or not valid XML

  /** The text printed after "halted: " for each condition. */
  function Message(h: Halt): (m: string)
    ensures |m| > 0
  {
    match h
    case MissingFileName => "missing name of MuseScore file"
    case MissingFilePointer => "error reading content structure (missing file pointer)"
    case MissingScoreFile => "missing name of actual score file"
    case UnreadableScore(path) => "error reading score from \"" + path + "\""
  }
}
