/**
 * The users collection as the authentication code and the user routes see
 * it: a sequence of records, searched front to back the way `findOne` and
 * `findById` return the first match.
 */
module UserStore {
  import opened Wrappers
  import opened JsValues

  /**
   * A stored user (src/models/User.ts). `refreshToken` is the value the
   * refresh-token rotation of src/libs/auth.ts reads and writes; `lastLogin`
   * is an abstract timestamp.
   */
  datatype UserRecord = UserRecord(
    id: string,
    company: Option<string>,
    name: string,
    email: string,
    password: string,
    role: string,
    lastLogin: Option<int>,
    refreshToken: Option<string>)

  /** The index of the first record satisfying `p`, if any. */
  function FirstWhere(users: seq<UserRecord>, p: UserRecord -> bool): (i: Option<nat>)
    ensures i.Some? ==> i.value < |users| && p(users[i.value])
    ensures i.Some? ==> forall j :: 0 <= j < i.value ==> !p(users[j])
    ensures i.None? ==> forall j :: 0 <= j < |users| ==> !p(users[j])
  {
    if users == [] then None
    else if p(users[0]) then Some(0)
    else
      match FirstWhere(users[1..], p)
      case None => None
      case Some(k) => Some(k + 1)
  }

  /** `findOne({ email })`. */
  function FindByEmail(users: seq<UserRecord>, email: string): Option<nat> {
    FirstWhere(users, (u: UserRecord) => u.email == email)
  }

  /** `findById(id)`. */
  function FindById(users: seq<UserRecord>, id: string): Option<nat> {
    FirstWhere(users, (u: UserRecord) => u.id == id)
  }

  /** The lookups find exactly the records that carry the key. */
  lemma FindCases(users: seq<UserRecord>, email: string, id: string)
    ensures FindByEmail(users, email).Some? <==> exists j :: 0 <= j < |users| && users[j].email == email
    ensures FindById(users, id).Some? <==> exists j :: 0 <= j < |users| && users[j].id == id
    ensures FindById(users, id).Some? ==> users[FindById(users, id).value].id == id
  {
    var e := FindByEmail(users, email);
    if e.None? {
      forall j | 0 <= j < |users| ensures users[j].email != email {
        assert !((u: UserRecord) => u.email == email)(users[j]);
      }
    }
    var d := FindById(users, id);
    if d.None? {
      forall j | 0 <= j < |users| ensures users[j].id != id {
        assert !((u: UserRecord) => u.id == id)(users[j]);
      }
    }
  }

  /**
   * The companies collection as `.populate('company')` reads it: the
   * document stored under an id, if any, and what `toString()` gives for a
   * document.
   */
  datatype Companies = Companies(lookup: string -> Option<JsVal>, render: JsVal -> string)

  /** What a user's `company` holds after `.populate('company')`. */
  datatype PopulatedCompany =
    | Unset              // the user has no company reference: undefined
    | Dangling           // the reference names no stored company: null
    | Document(doc: JsVal)

  function Populate(u: UserRecord, companies: Companies): (c: PopulatedCompany)
    ensures c == Unset <==> u.company.None?
    ensures c.Document? <==> u.company.Some? && companies.lookup(u.company.value).Some?
    ensures c.Document? ==> Some(c.doc) == companies.lookup(u.company.value)
  {
    match u.company
    case None => Unset
    case Some(id) =>
      match companies.lookup(id)
      case None => Dangling
      case Some(doc) => Document(doc)
  }

  /** The users collection; the routes insert into it and update records in place. */
  class UserTable {
    var users: seq<UserRecord>

    constructor (initial: seq<UserRecord>)
      ensures users == initial
    {
      users := initial;
    }
  }
}
