/** Access control: which documents a user can reach, and with which permission. */
module Acl {
  import opened Stores

  datatype PrincipalType = User | Group | Org | Role

  datatype Permission = Read | Write | Delete | Admin {
    function Level(): nat {
      match this
      case Read => 0
      case Write => 1
      case Delete => 2
      case Admin => 3
    }

    /** The hierarchy of the service layer. */
    predicate Includes(other: Permission) {
      Level() >= other.Level()
    }
  }

  datatype Entry = Entry(doc: DocUuid, principalType: PrincipalType, principalId: string, permission: Permission)

  datatype Caller = Caller(id: string, groups: seq<string>, org: Option<string>)

  /** The WHERE clause shared by both queries; an empty organisation counts as none. */
  predicate Matches(caller: Caller, e: Entry) {
    || (e.principalType == User && e.principalId == caller.id)
    || (e.principalType == Group && e.principalId in caller.groups)
    || (e.principalType == Org &&
      (e.principalId == "ALL" || (caller.org.Some? && caller.org.value != "" && e.principalId == caller.org.value)))
  }

  /** SELECT DISTINCT doc_uuid: any permission will do. */
  function Accessible(table: seq<Entry>, caller: Caller): set<DocUuid> {
    set e | e in table && Matches(caller, e) :: e.doc
  }

  /** The permissions a stored grant may have to satisfy a request. */
  function Accepted(p: Permission): set<Permission> {
    match p
    case Read => {Read, Write, Admin}
    case Write => {Write, Admin}
    case Admin => {Admin}
    case Delete => {Delete}
  }

  predicate Granted(table: seq<Entry>, caller: Caller, doc: DocUuid, p: Permission) {
    exists e :: e in table && e.doc == doc && Matches(caller, e) && e.permission == p
  }

  predicate CheckAccess(table: seq<Entry>, caller: Caller, doc: DocUuid, p: Permission) {
    exists e :: e in table && e.doc == doc && Matches(caller, e) && e.permission in Accepted(p)
  }

  /** When a single grant suffices: a user's own, one of a group the user is in, one of the user's
      organisation, which must not be empty, or one of all organisations; never one of a role.  It must
      allow the permission asked for, where writing includes reading and administering includes both. */
  lemma {:induction false} OneGrantSuffices(caller: Caller, e: Entry, p: Permission)
    ensures CheckAccess([e], caller, e.doc, p) <==>
      && (match e.principalType
          case User => e.principalId == caller.id
          case Group => e.principalId in caller.groups
          case Org => e.principalId == "ALL" || (e.principalId != "" && caller.org == Some(e.principalId))
          case Role => false)
      && (match p
          case Read => e.permission != Delete
          case Write => e.permission == Write || e.permission == Admin
          case Delete => e.permission == Delete
          case Admin => e.permission == Admin)
  {
    assert e in [e];
  }

  /** Grants do not add up: access to a document is that of one of its grants alone. */
  lemma {:induction false} AccessIsOneGrant(table: seq<Entry>, caller: Caller, doc: DocUuid, p: Permission)
    ensures CheckAccess(table, caller, doc, p) <==>
      exists e :: e in table && e.doc == doc && CheckAccess([e], caller, doc, p)
    ensures doc in Accessible(table, caller) <==>
      exists e :: e in table && e.doc == doc && doc in Accessible([e], caller)
  {
    if CheckAccess(table, caller, doc, p) {
      var e :| e in table && e.doc == doc && Matches(caller, e) && e.permission in Accepted(p);
      assert e in [e] && CheckAccess([e], caller, doc, p);
    }
    if doc in Accessible(table, caller) {
      var e :| e in table && e.doc == doc && Matches(caller, e);
      assert e in [e] && doc in Accessible([e], caller);
    }
  }

  /** The two queries agree on reading, except for a document on which all grants that match the caller
      are grants to delete: it is listed as accessible but may not be read. */
  lemma {:induction false} ReadAgreesWithAccessible(table: seq<Entry>, caller: Caller, doc: DocUuid)
    ensures CheckAccess(table, caller, doc, Read) ==> doc in Accessible(table, caller)
    ensures doc in Accessible(table, caller) && !CheckAccess(table, caller, doc, Read) <==>
      && Granted(table, caller, doc, Delete)
      && forall e :: e in table && e.doc == doc && Matches(caller, e) ==> e.permission == Delete
  {
  }

  /** Whoever may administer may write, and whoever may write may read. */
  lemma {:induction false} AccessIsAntitone(table: seq<Entry>, caller: Caller, doc: DocUuid)
    ensures CheckAccess(table, caller, doc, Admin) ==> CheckAccess(table, caller, doc, Write)
    ensures CheckAccess(table, caller, doc, Write) ==> CheckAccess(table, caller, doc, Read)
  {
  }

  /** What the hierarchy of the service layer would decide on the same grants. */
  predicate HierarchyAllows(table: seq<Entry>, caller: Caller, doc: DocUuid, p: Permission) {
    exists e :: e in table && e.doc == doc && Matches(caller, e) && e.permission.Includes(p)
  }

  /** The query and the hierarchy decide alike, unless the caller's only help is a grant to delete (for
      reading or writing) or a grant to administer (for deleting). */
  lemma {:induction false} CheckMatchesHierarchyIff(table: seq<Entry>, caller: Caller, doc: DocUuid, p: Permission)
    ensures (CheckAccess(table, caller, doc, p) <==> HierarchyAllows(table, caller, doc, p)) <==>
      match p
      case Admin => true
      case Delete => Granted(table, caller, doc, Admin) ==> Granted(table, caller, doc, Delete)
      case Write => Granted(table, caller, doc, Delete) ==>
        Granted(table, caller, doc, Write) || Granted(table, caller, doc, Admin)
      case Read => Granted(table, caller, doc, Delete) ==>
        Granted(table, caller, doc, Read) || Granted(table, caller, doc, Write) || Granted(table, caller, doc, Admin)
  {
  }
}
