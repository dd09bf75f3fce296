/** The in-memory session repository: a dictionary from session identifier to
    session object, with lookup and upsert. */
module SessionStore {
  import opened Common
  import opened Domain

  /** A dictionary lookup (`TryGetValue`): the stored session, or null. */
  function Lookup(store: map<Guid, InvestigationSession>, id: Guid): Option<InvestigationSession> {
    if id in store then Some(store[id]) else None
  }

  /** The dictionary after `_store[session.Id] = session`. */
  function Stored(store: map<Guid, InvestigationSession>, session: InvestigationSession): map<Guid, InvestigationSession> {
    store[session.id := session]
  }

  /** Keys are the identifiers of the sessions they hold. */
  ghost predicate Keyed(store: map<Guid, InvestigationSession>) {
    forall id | id in store :: store[id].id == id
  }

  /** An identifier nobody saved is not found. */
  lemma NeverSavedIsAbsent(store: map<Guid, InvestigationSession>, id: Guid)
    requires id !in store
    ensures Lookup(store, id) == None
  {
  }

  /** Saving then looking up the same identifier yields the saved session,
      whether or not one was stored under that identifier before (upsert). */
  lemma SaveThenGet(store: map<Guid, InvestigationSession>, session: InvestigationSession)
    ensures Lookup(Stored(store, session), session.id) == Some(session)
    ensures session.id in store ==> |Stored(store, session)| == |store|
    ensures session.id !in store ==> |Stored(store, session)| == |store| + 1
  {
  }

  /** Saving one session leaves every other identifier's entry as it was. */
  lemma SaveKeepsOtherEntries(store: map<Guid, InvestigationSession>, session: InvestigationSession, id: Guid)
    requires id != session.id
    ensures Lookup(Stored(store, session), id) == Lookup(store, id)
  {
  }

  /** Saving keeps every key naming its own session. */
  lemma SaveKeepsKeying(store: map<Guid, InvestigationSession>, session: InvestigationSession)
    requires Keyed(store)
    ensures Keyed(Stored(store, session))
  {
  }

  /** The repository. Concurrency control of the underlying dictionary is not
      modelled: calls are taken one at a time. */
  class InMemorySessionRepository {
    var store: map<Guid, InvestigationSession>

    ghost predicate Valid()
      reads this
    {
      Keyed(store)
    }

    constructor ()
      ensures store == map[]
      ensures Valid()
    {
      store := map[];
    }

    /** Looks a session up; changes nothing. */
    method Get(id: Guid) returns (session: Option<InvestigationSession>)
      requires Valid()
      ensures session.Some? <==> id in store
      ensures session.Some? ==> session.value == store[id] && session.value.id == id
    {
      if id in store {
        session := Some(store[id]);
      } else {
        session := None;
      }
    }

    /** Stores a session under its own identifier, replacing any earlier one. */
    method Save(session: InvestigationSession)
      requires Valid()
      modifies this
      ensures store == Stored(old(store), session)
      ensures Valid()
    {
      store := store[session.id := session];
      SaveKeepsKeying(old(store), session);
    }
  }
}
