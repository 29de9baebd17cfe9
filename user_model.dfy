/**
  The user documents of the Mongo collection (model/user.model.ts) and the collection itself,
  which `UserModel.create`, `findOne` and `save` read and write.
 */
module UserModel {
  import opened Outcomes

  /** `enum Roles { ADMIN = "admin", USER = "user" }`. */
  datatype Role = Admin | User

  function RoleName(r: Role): string {
    match r
    case Admin => "admin"
    case User => "user"
  }

  /**
    A user document. `oid` is `_id.toString()`; `password` is the bcrypt hash, or `None` where a
    query leaves the field out (it is declared `select: false`).
   */
  datatype UserRecord = UserRecord(
    oid: string,
    email: string,
    password: Option<string>,
    name: string,
    surname: string,
    role: Role,
    phonenumber: string,
    info: string,
    profilepic: string,
    featured: seq<string>)

  /** The fields `registerHandler` hands to `createUser`; every other field takes its default. */
  datatype NewUser = NewUser(email: string, password: string, name: string, surname: string, phonenumber: string)

  /** Why a write fails: the unique index (Mongo error code 11000), schema validation, or no connection. */
  datatype DbError = DuplicateKey | ValidationError | Unreachable

  /** `error.code` of a failed write. */
  function ErrorCode(e: DbError): Option<int> {
    if e == DuplicateKey then Some(11000) else None
  }

  /** What the lookups of the service see: whether the database answers, and its documents in natural order. */
  datatype Db = Db(reachable: bool, records: seq<UserRecord>)

  /** `_id`, `email` and `phonenumber` are unique across the collection. */
  ghost predicate UniqueKeys(rs: seq<UserRecord>) {
    forall i, j :: 0 <= i < j < |rs| ==>
      rs[i].oid != rs[j].oid && rs[i].email != rs[j].email && rs[i].phonenumber != rs[j].phonenumber
  }

  /** An insert of `u` would break the unique index on `email` or on `phonenumber`. */
  predicate Conflicts(rs: seq<UserRecord>, u: NewUser) {
    exists i | 0 <= i < |rs| :: rs[i].email == u.email || rs[i].phonenumber == u.phonenumber
  }

  /**
    The schema's validators: every `required` string is non-empty and the (not yet hashed)
    password has between 8 and 32 characters (`minlength`, `maxlength`).
   */
  predicate PassesValidation(u: NewUser) {
    u.email != "" && 8 <= |u.password| <= 32 && u.name != "" && u.surname != "" && u.phonenumber != ""
  }

  /** The document `create` stores: defaults filled in, the password replaced by its hash (the `pre("save")` hook). */
  function NewDocument(u: NewUser, oid: string, hash: string -> string): (d: UserRecord)
    ensures d.oid == oid && d.email == u.email && d.phonenumber == u.phonenumber
    ensures d.role == User && d.featured == [] && d.password == Some(hash(u.password))
  {
    UserRecord(oid, u.email, Some(hash(u.password)), u.name, u.surname, User, u.phonenumber, "", "", [])
  }

  /** The collection. */
  class Users {
    var records: seq<UserRecord>
    var reachable: bool

    ghost predicate Valid()
      reads this
    {
      UniqueKeys(records)
    }

    function View(): Db
      reads this
    {
      Db(reachable, records)
    }

    constructor (records: seq<UserRecord>, reachable: bool)
      requires UniqueKeys(records)
      ensures Valid() && this.records == records && this.reachable == reachable
    {
      this.records := records;
      this.reachable := reachable;
    }

    /**
      `UserModel.create(input)`: the document is validated in memory first, so an invalid one is a
      validation error even without a connection; only then is the insert sent, which fails without
      a connection and which the unique index refuses with a duplicate-key error. `oid` is the fresh
      ObjectId Mongo assigns.
     */
    method Create(u: NewUser, oid: string, hash: string -> string) returns (r: Result<UserRecord, DbError>)
      requires Valid()
      requires forall i :: 0 <= i < |records| ==> records[i].oid != oid
      modifies this
      ensures Valid() && reachable == old(reachable)
      ensures r == Err(ValidationError) <==> !PassesValidation(u)
      ensures r == Err(Unreachable) <==> PassesValidation(u) && !old(reachable)
      ensures r == Err(DuplicateKey) <==> old(reachable) && PassesValidation(u) && Conflicts(old(records), u)
      ensures r.Ok? <==> old(reachable) && PassesValidation(u) && !Conflicts(old(records), u)
      ensures r.Ok? ==> r.value == NewDocument(u, oid, hash) && records == old(records) + [r.value]
      ensures r.Err? ==> records == old(records)
    {
      if !PassesValidation(u) {
        return Err(ValidationError);
      }
      if !reachable {
        return Err(Unreachable);
      }
      if Conflicts(records, u) {
        return Err(DuplicateKey);
      }
      var d := NewDocument(u, oid, hash);
      records := records + [d];
      r := Ok(d);
    }
  }
}
