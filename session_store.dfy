/**
 * The in-memory session store: a map from session id to a mutable session
 * record. `create` stores a record under its own id, `get` looks one up,
 * and `addTurn` appends a turn to the stored record in place.
 */
module SessionStore {
  import opened Wrappers
  import opened Json

  /** Who spoke a turn. */
  datatype Speaker = Ai | Candidate

  /** One turn of the conversation: `{ role, text }`. */
  datatype Turn = Turn(role: Speaker, text: string)

  /** A session record (InMemory.ts lines 2-11); only its turns change after creation. */
  class Session {
    const id: string
    const interviewId: string
    const questions: seq<string>
    const started: int
    const durationSec: int
    var turns: seq<Turn>
    var finished: Option<int>
    var score: Option<Json>

    constructor (id: string, interviewId: string, questions: seq<string>, started: int, durationSec: int)
      ensures this.id == id && this.interviewId == interviewId && this.questions == questions
      ensures this.started == started && this.durationSec == durationSec
      ensures turns == [] && finished.None? && score.None?
    {
      this.id, this.interviewId, this.questions := id, interviewId, questions;
      this.started, this.durationSec := started, durationSec;
      turns, finished, score := [], None, None;
    }
  }

  /** The module-level `Map` (line 13) with the three operations of `InMemoryDB`. */
  class Store {
    var entries: map<string, Session>

    /** Every record is stored under its own id, so two keys never share a record. */
    predicate Valid()
      reads this, entries.Values
    {
      forall k :: k in entries ==> entries[k].id == k
    }

    constructor ()
      ensures Valid() && entries == map[]
    {
      entries := map[];
    }

    /** Records with different keys are different objects. */
    lemma Distinct(k1: string, k2: string)
      requires Valid() && k1 in entries && k2 in entries && k1 != k2
      ensures entries[k1] != entries[k2]
    {
    }

    /** `create` (lines 16-19): the record is stored under its id, replacing any earlier one, and returned. */
    method Create(s: Session) returns (r: Session)
      requires Valid()
      modifies this
      ensures Valid()
      ensures entries == old(entries)[s.id := s]
      ensures r == s
    {
      entries := entries[s.id := s];
      r := s;
    }

    /** `get` (lines 20-22): the record stored under the id, if any. */
    method Get(id: string) returns (r: Option<Session>)
      requires Valid()
      ensures r.Some? <==> id in entries
      ensures r.Some? ==> r.value == entries[id] && r.value.id == id
    {
      if id in entries {
        r := Some(entries[id]);
      } else {
        r := None;
      }
    }

    /**
     * `addTurn` (lines 23-26): the record stored under the id gets exactly
     * one more turn; an unknown id changes nothing, and no other record's
     * turns change.
     */
    method AddTurn(id: string, role: Speaker, text: string)
      requires Valid()
      modifies if id in entries then {entries[id]} else {}
      ensures Valid() && entries == old(entries)
      ensures id in entries ==> entries[id].turns == old(entries[id].turns) + [Turn(role, text)]
      ensures id in entries ==> entries[id].finished == old(entries[id].finished) && entries[id].score == old(entries[id].score)
      ensures forall k :: k in entries && k != id ==> entries[k].turns == old(entries[k].turns)
    {
      if id in entries {
        var sess := entries[id];
        sess.turns := sess.turns + [Turn(role, text)];
      }
    }

    /** A record that was just created is what `get` returns for its id. */
    method CreateThenGet(s: Session) returns (r: Option<Session>)
      requires Valid()
      modifies this
      ensures Valid() && entries == old(entries)[s.id := s]
      ensures r == Some(s)
    {
      var _ := Create(s);
      r := Get(s.id);
    }
  }
}
