/** The `User` schema: fields, the permission enumeration, the defaults a
    new account receives, the setters (`trim`, `lowercase`) and what the
    validators demand on save. Password hashing (bcrypt) is represented by
    the `Digest` type: a stored password is never a plain string. */
module UserModel {
  import opened Base

  /** The `permissions` enumeration. */
  datatype Permission = Default | Support

  datatype Avatar = Avatar(url: string, publicId: string)

  /** The result of `bcrypt.hash`. The constructor stands for the one-way
      function; only `Check` (bcrypt.compare) looks inside it. The random
      salt is not modelled. */
  datatype Digest = Bcrypt(preimage: string)

  /** `hashPassword` (src/utils/user.util.js). */
  function Hash(password: string): Digest {
    Bcrypt(password)
  }

  /** `checkPassword`: bcrypt.compare of an entered password with a stored digest. */
  predicate Check(entered: string, stored: Digest) {
    stored.preimage == entered
  }

  /** bcrypt's contract as the controllers rely on it: a password matches the
      digest of the password it was hashed from, and no other. */
  lemma CheckHash(entered: string, password: string)
    ensures Check(entered, Hash(password)) <==> entered == password
  {
  }

  datatype User = User(
    name: string,
    lastName: string,
    email: string,
    password: Digest,
    avatar: Avatar,
    permissions: seq<Permission>,
    isActive: bool,
    isConfirmed: bool)

  /** `permissions.includes("support")`. */
  predicate HasSupport(permissions: seq<Permission>) {
    Support in permissions
  }

  /** What the validators accept on `save()`: name, lastName and email are
      required (not empty) and stored as their setters leave them. */
  predicate Valid(u: User) {
    && u.name != "" && IsTrimmed(u.name)
    && u.lastName != "" && IsTrimmed(u.lastName)
    && u.email != "" && IsNormalized(u.email)
  }

  /** `new User({name, lastName, email, password})`: setters run and every
      other field takes its schema default. */
  function New(name: string, lastName: string, email: string, password: Digest): (u: User)
    ensures u.email == NormalizeEmail(email) && IsNormalized(u.email)
    ensures u.password == password
    ensures u.avatar == Avatar("", "")
    ensures u.permissions == [Default] && !HasSupport(u.permissions)
    ensures u.isActive && !u.isConfirmed
    ensures IsTrimmed(u.name) && IsTrimmed(u.lastName)
    ensures Valid(u) <==> !AllSpace(name) && !AllSpace(lastName) && NormalizeEmail(email) != ""
  {
    NormalizedForm(email);
    TrimEmptyIffAllSpace(name);
    TrimEmptyIffAllSpace(lastName);
    User(Trim(name), Trim(lastName), NormalizeEmail(email), password, Avatar("", ""),
         [Default], true, false)
  }

  /** A user as `select("-password")` returns it: every field but the password. */
  datatype Profile = Profile(
    id: ObjectId,
    name: string,
    lastName: string,
    email: string,
    avatar: Avatar,
    permissions: seq<Permission>,
    isActive: bool,
    isConfirmed: bool)

  function WithoutPassword(id: ObjectId, u: User): Profile {
    Profile(id, u.name, u.lastName, u.email, u.avatar, u.permissions, u.isActive, u.isConfirmed)
  }
}
