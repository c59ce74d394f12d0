/** The sign-in state of context/AuthContext.tsx: a fixed allow-list of user names (no
    passwords), the signed-in user, and its copy under the `auth_user` entry of local storage. */
module Auth {
  import opened Types
  import opened Strings

  datatype Role = Admin | Member

  datatype User = User(username: string, name: string, role: Role)

  /** An allow-list entry: display name and role. */
  datatype Account = Account(name: string, role: Role)

  /** `USERS`, keyed by the normalised user name. */
  function Accounts(): map<string, Account>
  {
    map[
      "tchub" := Account("T. Chub", Admin),
      "admin" := Account("Administrator", Admin),
      "screener" := Account("Screener One", Member),
      "guest" := Account("Guest User", Member)]
  }

  /** The user name as looked up: `username.trim().toLowerCase()`. */
  function NormalName(username: string): string
  {
    Lower(Trim(username))
  }

  /** Signing in ignores case and surrounding white space: a name typed with other
      capitalisation and padded with blanks is looked up as the plain name. */
  lemma NameLookupIgnoresCaseAndPadding(typed: string, name: string, before: string, after: string)
    requires Lower(typed) == Lower(name) && Blank(before) && Blank(after)
    ensures NormalName(before + typed + after) == NormalName(name)
  {
    TrimIgnoresPadding(before, typed, after);
    LowerTrim(typed);
    LowerTrim(name);
  }

  // ---------------------------------------------------------------------------
  // The lookup as written: `USERS[key]` on a plain object literal

  /** What a property read on `USERS` yields: a display name and a role, either of which may
      be missing. */
  datatype Found = Found(name: Option<string>, role: Option<Role>)

  /** The property names a plain object inherits from `Object.prototype` that are already
      trimmed and lower case, so that a normalised user name can reach them. */
  function InheritedKeys(): set<string>
  {
    {"constructor", "__proto__"}
  }

  /** `USERS[key]`: the own entry, or else the inherited value, which is the `Object`
      function for "constructor" (its `name` is "Object", it has no `role`) and
      `Object.prototype` for "__proto__" (no `name`, no `role`); both are truthy. */
  function LookupAsWritten(key: string): (r: Option<Found>)
    ensures r.Some? <==> key in Accounts() || key in InheritedKeys()
    ensures key in Accounts() ==> r == Some(Found(Some(Accounts()[key].name), Some(Accounts()[key].role)))
    ensures key !in Accounts() && r.Some? ==> r.value.role == None
  {
    if key in Accounts() then Some(Found(Some(Accounts()[key].name), Some(Accounts()[key].role)))
    else if key == "constructor" then Some(Found(Some("Object"), None))
    else if key == "__proto__" then Some(Found(None, None))
    else None
  }

  /** `login` as written accepts a name whenever the lookup is truthy. */
  function AcceptedAsWritten(username: string): (ok: bool)
    ensures ok <==> NormalName(username) in Accounts() || NormalName(username) in InheritedKeys()
  {
    LookupAsWritten(NormalName(username)).Some?
  }

  /** The user name "constructor" is not on the allow-list, yet the lookup as written lets it
      sign in, as a user with no role. */
  lemma ConstructorSignsInAsWritten()
    ensures "constructor" !in Accounts()
    ensures AcceptedAsWritten("constructor")
    ensures LookupAsWritten(NormalName("constructor")).value.role == None
  {
    ConstructorIsNormal();
  }

  lemma ConstructorIsNormal()
    ensures NormalName("constructor") == "constructor"
  {
    ConstructorIsTrimmed();
    ConstructorIsLowerCase();
  }

  lemma ConstructorIsTrimmed()
    ensures Trim("constructor") == "constructor"
  {
    var k := "constructor";
    assert k[0] == 'c' && k[|k| - 1] == 'r';
    assert TrimStart(k) == k;
  }

  lemma ConstructorIsLowerCase()
    ensures Lower("constructor") == "constructor"
  {
    var k := "constructor";
    forall i | 0 <= i < |k|
      ensures !('A' <= k[i] <= 'Z')
    {
    }
    LowerOfLowerCase(k);
  }

  class AuthProvider {
    var user: Option<User>
    /** The `auth_user` entry of local storage. */
    var storedUser: Option<User>

    /** The entry mirrors the user once the effect has run. */
    predicate Valid()
      reads this
    {
      storedUser == user
    }

    /** The initial user is the stored one, if any. */
    constructor (saved: Option<User>)
      ensures user == saved && Valid()
    {
      user := saved;
      storedUser := saved;
    }

    /** `login`: succeeds exactly when the trimmed, lowercased name is on the allow-list; the
        user then keeps the name as typed and takes display name and role from the list. */
    method Login(username: string) returns (ok: bool)
      requires Valid()
      modifies this
      ensures Valid()
      ensures ok <==> NormalName(username) in Accounts()
      ensures ok ==> user == Some(User(username, Accounts()[NormalName(username)].name, Accounts()[NormalName(username)].role))
      ensures !ok ==> user == old(user)
    {
      var key := NormalName(username);
      if key in Accounts() {
        var account := Accounts()[key];
        user := Some(User(username, account.name, account.role));
        storedUser := user;
        return true;
      }
      return false;
    }

    /** `logout`: no user, and the stored entry is removed. */
    method Logout()
      modifies this
      ensures user == None && storedUser == None && Valid()
    {
      user := None;
      storedUser := None;
    }

    /** `isAuthenticated`: a user is signed in. */
    function IsAuthenticated(): (b: bool)
      reads this
      ensures b <==> user.Some?
    {
      user != None
    }
  }
}
