/**
 * The error kinds of the current generation (src/errors.rs) and of the
 * string-keyed import graph (src/import_graph/errors.rs). Tokens are arena
 * indices and pypaths are their strings. `UnknownPackage` and `UnknownModule`
 * are raised by src/package_info/queries.rs but are missing from the enum of
 * src/errors.rs; they are added here.
 */
module Errors {
  datatype Error =
    | UnknownPackageItem(token: nat)
    | UnknownPackage(token: nat)
    | UnknownModule(token: nat)
    | UnableToParsePythonFile(path: seq<string>)
    | UnknownInternalImport(pypath: string)
    | NoSuchImport
    | NotAPackage
    | NotAModule
    | InvalidPypath

  datatype GraphError =
    | CannotReadDir
    | NotAPythonPackage
    | PackageNotFound(pypath: string)
    | ModuleNotFound(pypath: string)
    | ImportNotFound(from: string, to: string)
}
