/** The program's error enum. Only the variants are kept; their display
    text is cosmetic. */
module ArrErrors {

  datatype ArrError =
    | ArgValueNotFound(name: string)
    | OtherNomError(message: string)
    | OsNotSupported
    | FileNotFound(path: string)
    | CannotParseYaml(message: string)
    | CannotLocateYamlFile
    | FilePathNotSet(path: string)
    | CommandIoFailure(message: string)
    | CommandExecutionFailed
    | RootRequired
    | Other(message: string)
}
