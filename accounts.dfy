/**
 * The account rules: password verification in both storage modes, and the order of the
 * sign-up checks. `hash_password` (SHA-256 in hex) is a parameter `hash` throughout.
 */
module Accounts {
  import opened Text

  /** A stored user: the password as stored (a digest, or plaintext in older files), names and profile. */
  datatype Account = Account(password: string, fullname: string, email: string, profile: map<string, string>)

  /** `verify_password`: an empty stored value never matches; otherwise plaintext or digest equality. */
  function VerifyPassword(hash: string -> string, stored: string, plain: string): bool
  {
    stored != "" && (stored == plain || stored == hash(plain))
  }

  /** Both storage modes are accepted, and nothing else is. */
  lemma VerifyPasswordModes(hash: string -> string, stored: string, plain: string)
    ensures stored == "" ==> !VerifyPassword(hash, stored, plain)
    ensures stored != "" && stored == plain ==> VerifyPassword(hash, stored, plain)
    ensures stored != "" && stored == hash(plain) ==> VerifyPassword(hash, stored, plain)
    ensures stored != plain && stored != hash(plain) ==> !VerifyPassword(hash, stored, plain)
  {
  }

  /** The login decision of `submit_login`: the stripped name is known and the password verifies. */
  function LoginAccepted(hash: string -> string, users: map<string, Account>, username: string, password: string): bool
  {
    var u := Strip(username);
    u in users && VerifyPassword(hash, users[u].password, password)
  }

  const AllFieldsRequired: string := "All fields required."
  const PasswordsDiffer: string := "Passwords don't match."
  const UsernameTaken: string := "Username taken."

  datatype SignupCheck = Accepted | Rejected(message: string)

  /**
   * The checks of `submit_signup`, first failure wins. Name, username and email are stripped;
   * the password and its confirmation are taken as typed.
   */
  function SignupDecision(users: map<string, Account>, fullname: string, username: string, email: string,
                          password: string, confirm: string): SignupCheck
  {
    if Strip(fullname) == "" || Strip(username) == "" || Strip(email) == "" || password == "" || confirm == "" then
      Rejected(AllFieldsRequired)
    else if password != confirm then Rejected(PasswordsDiffer)
    else if Strip(username) in users then Rejected(UsernameTaken)
    else Accepted
  }

  /** The account a successful sign-up stores: the digest of the password and the stripped fields. */
  function NewAccount(hash: string -> string, fullname: string, email: string, password: string): Account
  {
    Account(hash(password), Strip(fullname), Strip(email), map[])
  }

  /** A sign-up is accepted exactly when no field is blank, the passwords agree and the name is free. */
  lemma SignupAcceptedIff(users: map<string, Account>, fullname: string, username: string, email: string,
                          password: string, confirm: string)
    ensures SignupDecision(users, fullname, username, email, password, confirm) == Accepted
      <==> && !Blank(fullname) && !Blank(username) && !Blank(email)
           && password != "" && password == confirm
           && Strip(username) !in users
  {
    StripEmptyIffBlank(fullname);
    StripEmptyIffBlank(username);
    StripEmptyIffBlank(email);
  }

  /**
   * After an accepted sign-up the new user can log in with the same name and password, and
   * every other user's login is decided as before.
   */
  lemma SignupThenLogin(hash: string -> string, users: map<string, Account>, fullname: string, username: string,
                        email: string, password: string, confirm: string, other: string, otherPassword: string)
    requires SignupDecision(users, fullname, username, email, password, confirm) == Accepted
    requires hash(password) != ""
    requires Strip(other) != Strip(username)
    ensures var users' := users[Strip(username) := NewAccount(hash, fullname, email, password)];
      && LoginAccepted(hash, users', username, password)
      && LoginAccepted(hash, users', other, otherPassword) == LoginAccepted(hash, users, other, otherPassword)
  {
  }
}
