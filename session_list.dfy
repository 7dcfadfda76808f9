/** The collection transformations inside the hook's operations
    (hooks/use-chat-session.ts): array spread, `find`, `filter` and `map` with
    object spread, each over the list of sessions that was read. */
module SessionList {
  import opened ChatTypes

  /** Some session in `ss` has identifier `id`. */
  predicate HasId(ss: seq<Session>, id: string)
  {
    exists i :: 0 <= i < |ss| && ss[i].id == id
  }

  // ---------------------------------------------------------------- setSession

  /** `[chatSession, ...sessions]` */
  function Prepend(s: Session, ss: seq<Session>): seq<Session>
  {
    [s] + ss
  }

  // ------------------------------------------------------------ getSessionById

  /** `sessions.find(s => s.id === id)`: the first session in list order whose
      identifier is `id`, or none when there is no such session. */
  function FindById(ss: seq<Session>, id: string): (r: Option<Session>)
    ensures r.None? <==> !HasId(ss, id)
    ensures r.Some? ==> exists i :: 0 <= i < |ss| && ss[i] == r.value && ss[i].id == id && !HasId(ss[..i], id)
  {
    if ss == [] then None
    else if ss[0].id == id then
      assert ss[..0] == [];
      Some(ss[0])
    else
      var r := FindById(ss[1..], id);
      if r.Some? then
        var i :| 0 <= i < |ss[1..]| && ss[1..][i] == r.value && ss[1..][i].id == id && !HasId(ss[1..][..i], id);
        assert ss[..i + 1] == [ss[0]] + ss[1..][..i];
        r
      else
        r
  }

  /** A session put at the head shadows every older session with its
      identifier, and lookups of any other identifier are unaffected. */
  lemma FindAfterPrepend(s: Session, ss: seq<Session>, id: string)
    ensures FindById(Prepend(s, ss), id) == if s.id == id then Some(s) else FindById(ss, id)
  {
  }

  // --------------------------------------------------------- removeSessionById

  /** `sessions.filter(s => s.id !== id)`: every session without identifier
      `id` is kept as often as it occurs, and none with `id` is left (so a
      session is in the result exactly when it is in `ss` with another
      identifier, see FilteredFacts). The survivors keep their order, see
      RemoveByIdConcat. */
  function RemoveById(ss: seq<Session>, id: string): (r: seq<Session>)
    ensures forall s :: multiset(r)[s] == if s.id == id then 0 else multiset(ss)[s]
    ensures !HasId(r, id)
    ensures |r| <= |ss|
    ensures !HasId(ss, id) ==> r == ss
  {
    if ss == [] then []
    else
      var rest := RemoveById(ss[1..], id);
      assert ss == [ss[0]] + ss[1..];
      assert multiset(ss) == multiset{ss[0]} + multiset(ss[1..]);
      var r := if ss[0].id == id then rest else [ss[0]] + rest;
      assert r == [ss[0]] + rest ==> multiset(r) == multiset{ss[0]} + multiset(rest);
      assert !HasId(ss, id) ==> ss[0].id != id && !HasId(ss[1..], id) && r == ss;
      FilteredFacts(ss, r, id);
      r
  }

  /** What follows for a list `r` whose multiset is that of `ss` without the
      sessions with identifier `id`. */
  lemma FilteredFacts(ss: seq<Session>, r: seq<Session>, id: string)
    requires forall s :: multiset(r)[s] == if s.id == id then 0 else multiset(ss)[s]
    ensures forall s :: s in r <==> s in ss && s.id != id
    ensures !HasId(r, id)
    ensures |r| <= |ss|
  {
    assert multiset(r) <= multiset(ss);
    assert |multiset(r)| <= |multiset(ss)| by {
      var extra := multiset(ss) - multiset(r);
      assert multiset(ss) == multiset(r) + extra;
    }
    forall i | 0 <= i < |r| ensures r[i].id != id {
      assert r[i] in multiset(r);
    }
  }

  /** Filtering distributes over concatenation: the sessions that survive keep
      their relative order, whatever prefix and suffix they come from. */
  lemma {:induction false} RemoveByIdConcat(a: seq<Session>, b: seq<Session>, id: string)
    ensures RemoveById(a + b, id) == RemoveById(a, id) + RemoveById(b, id)
  {
    if a == [] {
      assert a + b == b;
    } else {
      assert (a + b)[0] == a[0];
      assert (a + b)[1..] == a[1..] + b;
      RemoveByIdConcat(a[1..], b, id);
    }
  }

  /** After a removal no lookup finds the removed identifier, and lookups of
      every other identifier return what they returned before. */
  lemma {:induction false} FindAfterRemove(ss: seq<Session>, id: string, other: string)
    ensures FindById(RemoveById(ss, id), other) == if other == id then None else FindById(ss, other)
  {
    if ss != [] && other != id {
      FindAfterRemove(ss[1..], id, other);
      if ss[0].id != id {
        assert ([ss[0]] + RemoveById(ss[1..], id))[1..] == RemoveById(ss[1..], id);
      }
    }
  }

  // ------------------------------------------------------- addMessageToSession

  /** `{ ...session, messages: [...session.messages, chatMessage] }`: the
      old messages followed by the new one, every other field kept. */
  function WithMessage(s: Session, m: Message): (r: Session)
    ensures |r.messages| == |s.messages| + 1
    ensures r.messages[..|s.messages|] == s.messages && r.messages[|s.messages|] == m
    ensures r.id == s.id && r.title == s.title
    ensures r.createdAt == s.createdAt && r.updatedAt == s.updatedAt
  {
    s.(messages := s.messages + [m])
  }

  /** `sessions.map(...)` of addMessageToSession: every session whose
      identifier is `sid` gets `m` appended to its messages, and nothing else
      changes. */
  function AppendMessage(ss: seq<Session>, sid: string, m: Message): (r: seq<Session>)
    ensures |r| == |ss|
    ensures forall i :: 0 <= i < |ss| && ss[i].id == sid ==> r[i] == WithMessage(ss[i], m)
    ensures forall i :: 0 <= i < |ss| && ss[i].id != sid ==> r[i] == ss[i]
    ensures !HasId(ss, sid) ==> r == ss
  {
    if ss == [] then []
    else
      var head := if ss[0].id == sid then WithMessage(ss[0], m) else ss[0];
      var rest := AppendMessage(ss[1..], sid, m);
      var r := [head] + rest;
      assert forall i :: 1 <= i < |ss| ==> r[i] == rest[i - 1] && ss[i] == ss[1..][i - 1];
      assert !HasId(ss, sid) ==> !HasId(ss[1..], sid) && head == ss[0] && r == [ss[0]] + ss[1..];
      r
  }

  /** Appending then looking the session up gives the old session with the
      message at the end of its list; other lookups are unaffected. */
  lemma {:induction false} FindAfterAppend(ss: seq<Session>, sid: string, m: Message, id: string)
    ensures FindById(AppendMessage(ss, sid, m), id) ==
              if id != sid then FindById(ss, id)
              else match FindById(ss, id)
                   case Some(s) => Some(WithMessage(s, m))
                   case None => None
  {
    if ss != [] {
      var r := AppendMessage(ss, sid, m);
      assert r[1..] == AppendMessage(ss[1..], sid, m);
      FindAfterAppend(ss[1..], sid, m, id);
    }
  }

  // ------------------------------------------------------------- updateSession

  /** The value of one field after `{ ...session, ...newSession }`. */
  function Overlay<T>(slot: Slot<T>, current: T): T
  {
    match slot
    case Present(v) => v
    case Absent => current
  }

  /** `{ ...session, ...newSession }` */
  function Merge(s: Session, p: SessionPatch): (r: Session)
    ensures r.id == s.id
    ensures r.messages == p.messages
    ensures p.title.Present? ==> r.title == p.title.value
    ensures p.title.Absent? ==> r.title == s.title
    ensures p.createdAt.Present? ==> r.createdAt == p.createdAt.value
    ensures p.createdAt.Absent? ==> r.createdAt == s.createdAt
    ensures p.updatedAt.Present? ==> r.updatedAt == p.updatedAt.value
    ensures p.updatedAt.Absent? ==> r.updatedAt == s.updatedAt
  {
    Session(p.messages, Overlay(p.title, s.title), s.id,
            Overlay(p.createdAt, s.createdAt), Overlay(p.updatedAt, s.updatedAt))
  }

  /** `{ ...p, ...q }` for two patches: the keys of `q` win. */
  function Combine(p: SessionPatch, q: SessionPatch): SessionPatch
  {
    SessionPatch(q.messages,
                 if q.title.Present? then q.title else p.title,
                 if q.createdAt.Present? then q.createdAt else p.createdAt,
                 if q.updatedAt.Present? then q.updatedAt else p.updatedAt)
  }

  /** Two merges in a row are one merge of the combined patch; in particular
      merging the same patch twice is merging it once. */
  lemma MergeTwice(s: Session, p: SessionPatch, q: SessionPatch)
    ensures Merge(Merge(s, p), q) == Merge(s, Combine(p, q))
    ensures Merge(Merge(s, p), p) == Merge(s, p)
  {
  }

  /** `sessions.map(...)` of updateSession: every session whose identifier is
      `sid` is merged with `p`, and nothing else changes. */
  function UpdateById(ss: seq<Session>, sid: string, p: SessionPatch): (r: seq<Session>)
    ensures |r| == |ss|
    ensures forall i :: 0 <= i < |ss| && ss[i].id == sid ==> r[i] == Merge(ss[i], p)
    ensures forall i :: 0 <= i < |ss| && ss[i].id != sid ==> r[i] == ss[i]
    ensures !HasId(ss, sid) ==> r == ss
  {
    if ss == [] then []
    else
      var head := if ss[0].id == sid then Merge(ss[0], p) else ss[0];
      var rest := UpdateById(ss[1..], sid, p);
      var r := [head] + rest;
      assert forall i :: 1 <= i < |ss| ==> r[i] == rest[i - 1] && ss[i] == ss[1..][i - 1];
      assert !HasId(ss, sid) ==> !HasId(ss[1..], sid) && head == ss[0] && r == [ss[0]] + ss[1..];
      r
  }

  /** Two updates of the same session are one update with the combined
      patch. */
  lemma UpdateTwice(ss: seq<Session>, sid: string, p: SessionPatch, q: SessionPatch)
    ensures UpdateById(UpdateById(ss, sid, p), sid, q) == UpdateById(ss, sid, Combine(p, q))
  {
  }

  /** Updating then looking the session up gives the merged session; other
      lookups are unaffected. */
  lemma {:induction false} FindAfterUpdate(ss: seq<Session>, sid: string, p: SessionPatch, id: string)
    ensures FindById(UpdateById(ss, sid, p), id) ==
              if id != sid then FindById(ss, id)
              else match FindById(ss, id)
                   case Some(s) => Some(Merge(s, p))
                   case None => None
  {
    if ss != [] {
      var r := UpdateById(ss, sid, p);
      assert r[1..] == UpdateById(ss[1..], sid, p);
      FindAfterUpdate(ss[1..], sid, p, id);
    }
  }
}
