/**
 * The remote document store reduced to two in-memory collections keyed by
 * document id: "incidents" and "users". Each write the app issues is
 * modelled as succeeding at once.
 */
module Store {
  import opened Domain

  type IncidentDocs = map<string, Incident>
  type UserDocs = map<string, User>

  /** `collection("incidents").add(inc)` under the fresh id the store picks. */
  function Added(docs: IncidentDocs, newId: string, inc: Incident): (r: IncidentDocs)
    requires newId !in docs
    ensures r.Keys == docs.Keys + {newId} && |r| == |docs| + 1
    ensures r[newId] == inc
    ensures forall k | k in docs :: r[k] == docs[k]
  {
    docs[newId := inc]
  }

  /**
   * `document(id).update("statusName", status.name)`: only that field of that
   * document changes; updating a missing document fails and changes nothing.
   */
  function WithStatus(docs: IncidentDocs, id: string, status: IncidentStatus): (r: IncidentDocs)
    ensures r.Keys == docs.Keys
    ensures forall k | k in docs && k != id :: r[k] == docs[k]
    ensures id in docs ==> r[id] == docs[id].(statusName := StatusName(status))
  {
    if id in docs then docs[id := docs[id].(statusName := StatusName(status))] else docs
  }

  /** `document(id).delete()`: that document is gone, the others are untouched. */
  function Deleted(docs: IncidentDocs, id: string): (r: IncidentDocs)
    ensures r.Keys == docs.Keys - {id}
    ensures forall k | k in r :: r[k] == docs[k]
  {
    docs - {id}
  }

  /** `document(uid).update("followedIncidents", follows)`; a missing document is left missing. */
  function WithFollows(users: UserDocs, uid: string, follows: seq<string>): (r: UserDocs)
    ensures r.Keys == users.Keys
    ensures forall k | k in users && k != uid :: r[k] == users[k]
    ensures uid in users ==> r[uid] == users[uid].(followedIncidents := follows)
  {
    if uid in users then users[uid := users[uid].(followedIncidents := follows)] else users
  }

  /** After a status update the incident parses to the new status; its type, author and text are kept. */
  lemma WithStatusParses(docs: IncidentDocs, id: string, status: IncidentStatus)
    requires id in docs
    ensures StatusOf(WithStatus(docs, id, status)[id]) == status
    ensures TypeOf(WithStatus(docs, id, status)[id]) == TypeOf(docs[id])
    ensures WithStatus(docs, id, status)[id].(statusName := docs[id].statusName) == docs[id]
  {
    ParseStatusName(status);
  }

  /** Setting the same status twice is the same as setting it once. */
  lemma WithStatusIdempotent(docs: IncidentDocs, id: string, status: IncidentStatus)
    ensures WithStatus(WithStatus(docs, id, status), id, status) == WithStatus(docs, id, status)
  {
  }

  /** Any status can be set from any status: a later update overrides an earlier one. */
  lemma WithStatusOverrides(docs: IncidentDocs, id: string, first: IncidentStatus, second: IncidentStatus)
    ensures WithStatus(WithStatus(docs, id, first), id, second) == WithStatus(docs, id, second)
  {
  }

  /** Deleting an incident that was just added restores the collection. */
  lemma AddedThenDeleted(docs: IncidentDocs, newId: string, inc: Incident)
    requires newId !in docs
    ensures Deleted(Added(docs, newId, inc), newId) == docs
  {
  }

  /** Deleting twice is deleting once. */
  lemma DeletedIdempotent(docs: IncidentDocs, id: string)
    ensures Deleted(Deleted(docs, id), id) == Deleted(docs, id)
  {
  }
}
