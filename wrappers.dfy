/** Option and Result values, and the kinds of failure the Ruby code raises. */
module Wrappers {

  datatype Option<+T> = None | Some(value: T) {
    function GetOr(default: T): T {
      match this
      case Some(v) => v
      case None => default
    }
  }

  /** What went wrong, one constructor per distinct way the Ruby code fails.
      `Precondition` is a failed `DBC.require`; `ErreurMethode` a NoMethodError
      on nil or a missing setter; `DateInvalide` a Date::Error; the others are
      the `fail`s of `noter`, `init`, `charger` and `calculer_*_max`, and the
      missing file `sauver` tries to copy. */
  datatype Erreur =
    | Precondition
    | ErreurMethode
    | DateInvalide
    | DejaNote
    | NoteInvalide
    | FichierExiste
    | FichierInexistant
    | EntreeVide

  datatype Result<+T> = Ok(value: T) | Err(error: Erreur)
}
