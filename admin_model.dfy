/**
 * The admin account: its stored record, the two projections handlers hand
 * out, and the document whose pre-save hook hashes the password only when it
 * changed. bcrypt is symbolic: a hash remembers what it hashed and its salt,
 * and comparing a candidate succeeds exactly against a hash of that candidate.
 */
module AdminModel {
  import opened Outcomes
  import opened Js

  /** The role the schema gives an account created without one. */
  const DefaultRole := "admin"

  /** A stored password: the clear text as submitted, or a bcrypt hash of a previous value. */
  datatype Password = Clear(text: string) | Hashed(of: Password, salt: nat)

  /** `bcrypt.hash(password, salt)`. */
  function Hash(p: Password, salt: nat): Password
  {
    Hashed(p, salt)
  }

  /** `bcrypt.compare(candidate, stored)`: true exactly when `stored` hashes that clear text. */
  predicate Compare(candidate: string, stored: Password)
  {
    stored.Hashed? && stored.of == Clear(candidate)
  }

  /** The comparison accepts the password a hash was made from, whatever the salt... */
  lemma CompareHash(text: string, salt: nat)
    ensures Compare(text, Hash(Clear(text), salt))
  {
  }

  /** ...and nothing else; and a clear, unhashed password never compares equal. */
  lemma CompareOnlyHashed(candidate: string, stored: Password)
    ensures Compare(candidate, stored) ==> exists salt :: stored == Hash(Clear(candidate), salt)
    ensures stored.Clear? ==> !Compare(candidate, stored)
  {
    if Compare(candidate, stored) {
      assert stored == Hash(Clear(candidate), stored.salt);
    }
  }

  /**
   * A stored account. `email` and `refreshToken` are written and queried by
   * the controllers though the schema does not declare them; they are kept.
   */
  datatype Account = Account(
    id: Id,
    username: string,
    email: Option<string>,
    password: Password,
    role: string,
    refreshToken: Option<string>)

  /** `req.user` and the logged-in user: the account without password and refreshToken. */
  datatype Identity = Identity(id: Id, username: string, email: Option<string>, role: string)

  /** The registered user as returned: the account without its password only. */
  datatype Profile = Profile(id: Id, username: string, email: Option<string>, role: string, refreshToken: Option<string>)

  /** `.select("-password -refreshToken")`. */
  function Sanitize(a: Account): (u: Identity)
    ensures u.id == a.id && u.username == a.username && u.email == a.email && u.role == a.role
  {
    Identity(a.id, a.username, a.email, a.role)
  }

  /** `.select("-password")`. */
  function WithoutPassword(a: Account): (p: Profile)
    ensures p.id == a.id && p.username == a.username && p.email == a.email
    ensures p.role == a.role && p.refreshToken == a.refreshToken
  {
    Profile(a.id, a.username, a.email, a.role, a.refreshToken)
  }

  /**
   * An Admin document in memory: the record's fields plus Mongoose's
   * modified-flag for the password path, which the pre-save hook consults.
   */
  class AdminDocument {
    var id: Id
    var username: string
    var email: Option<string>
    var password: Password
    var role: string
    var refreshToken: Option<string>
    var passwordModified: bool

    /** The record the document holds. */
    function Record(): (a: Account)
      reads this
      ensures a.id == id && a.username == username && a.email == email
      ensures a.password == password && a.role == role && a.refreshToken == refreshToken
    {
      Account(id, username, email, password, role, refreshToken)
    }

    /**
     * `new Admin({ username, password, email })` (what `Admin.create`
     * builds): role takes its default, and every given path, the password
     * among them, counts as modified.
     */
    constructor Create(id: Id, username: string, password: string, email: Option<string>)
      ensures Record() == Account(id, username, email, Clear(password), DefaultRole, None)
      ensures passwordModified
    {
      this.id := id;
      this.username := username;
      this.email := email;
      this.password := Clear(password);
      this.role := DefaultRole;
      this.refreshToken := None;
      this.passwordModified := true;
    }

    /** A document loaded from the store (`findById`): nothing is modified yet. */
    constructor Load(a: Account)
      ensures Record() == a && !passwordModified
    {
      this.id := a.id;
      this.username := a.username;
      this.email := a.email;
      this.password := a.password;
      this.role := a.role;
      this.refreshToken := a.refreshToken;
      this.passwordModified := false;
    }

    /** `user.refreshToken = token`: the password path stays unmodified. */
    method SetRefreshToken(token: string)
      modifies this
      ensures Record() == old(Record()).(refreshToken := Some(token))
      ensures passwordModified == old(passwordModified)
    {
      refreshToken := Some(token);
    }

    /**
     * The pre-save hook: when the password path was modified the password is
     * replaced by its hash with a fresh salt; otherwise nothing changes.
     */
    method PreSave(salt: nat)
      modifies this
      ensures old(passwordModified) ==> Record() == old(Record()).(password := Hash(old(password), salt))
      ensures !old(passwordModified) ==> Record() == old(Record())
      ensures passwordModified == old(passwordModified)
    {
      if !passwordModified {
        return;
      }
      password := Hash(password, salt);
    }
  }

  /**
   * Saving a new account stores the hash of the submitted password with the
   * default role, and that password then compares equal.
   */
  method CreateAndSave(id: Id, username: string, password: string, email: Option<string>, salt: nat)
    returns (a: Account)
    ensures a == Account(id, username, email, Hash(Clear(password), salt), DefaultRole, None)
    ensures Compare(password, a.password)
  {
    var doc := new AdminDocument.Create(id, username, password, email);
    doc.PreSave(salt);
    a := doc.Record();
  }

  /**
   * Saving a loaded account after setting its refresh token keeps the stored
   * password exactly as it was: the hash is not hashed again.
   */
  method SaveRefreshToken(a: Account, token: string, salt: nat) returns (b: Account)
    ensures b == a.(refreshToken := Some(token))
    ensures b.password == a.password
  {
    var doc := new AdminDocument.Load(a);
    doc.SetRefreshToken(token);
    doc.PreSave(salt);
    b := doc.Record();
  }
}
