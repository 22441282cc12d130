/**
 * `components/Vault.tsx`: a two-state lock in front of the shared logins and documents.
 * The password is compared in plain text on the client; the model states the gate's
 * transitions, not any secrecy.
 */
module Vault {

  const Password := "familyfirst"
  const IncorrectPassword := "Incorrect password. Try again."

  datatype VaultItem = VaultItem(id: string, service: string, username: string)
  datatype DocumentKind = Pdf | Image | Document
  datatype DocumentItem = DocumentItem(id: string, name: string, kind: DocumentKind)

  /** What the component renders: the password form with its error line, or the two lists. */
  datatype VaultScreen = PasswordGate(error: string) | Unlocked(logins: seq<VaultItem>, documents: seq<DocumentItem>)

  const SharedLogins := [
    VaultItem("v1", "House Wi-Fi", "GrammaHouse"),
    VaultItem("v2", "Netflix", "family@email.com"),
    VaultItem("v3", "Electric Bill", "stacey@email.com"),
    VaultItem("v4", "Gas Company", "stacey@email.com")]

  const SharedDocs := [
    DocumentItem("d1", "Gram's Insurance Card.pdf", Pdf),
    DocumentItem("d2", "Stove Warranty.pdf", Pdf),
    DocumentItem("d3", "Gram's Advanced Directive.docx", Document)]

  class SecureVault {
    var isAuthenticated: bool
    var password: string
    var error: string

    /** The vault starts locked, with an empty password field and no error. */
    constructor ()
      ensures !isAuthenticated && password == [] && error == []
    {
      isAuthenticated, password, error := false, [], [];
    }

    /** Typing in the password field. */
    method EditPassword(p: string)
      modifies this`password
      ensures password == p
    {
      password := p;
    }

    /** `handleLogin`: the right password unlocks and clears the error; any other leaves the
        lock as it was and sets the fixed message. Nothing ever locks the vault again. */
    method Submit()
      modifies this`isAuthenticated, this`error
      ensures password == Password ==> isAuthenticated && error == []
      ensures password != Password ==> isAuthenticated == old(isAuthenticated) && error == IncorrectPassword
      ensures old(isAuthenticated) ==> isAuthenticated
    {
      if password == Password {
        isAuthenticated := true;
        error := [];
      } else {
        error := IncorrectPassword;
      }
    }

    /** While locked only the password gate is shown; the logins and documents only once unlocked. */
    function Screen(): (s: VaultScreen)
      reads this
      ensures s.PasswordGate? <==> !isAuthenticated
      ensures s.PasswordGate? ==> s.error == error
      ensures s.Unlocked? ==> s.logins == SharedLogins && s.documents == SharedDocs
    {
      if !isAuthenticated then PasswordGate(error) else Unlocked(SharedLogins, SharedDocs)
    }
  }
}
