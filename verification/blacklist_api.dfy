/** The blacklist register handler (pages/api/blacklist.ts): phone numbers for
    which the customer-facing assistant is paused, kept in a database collection
    and mirrored to an external execution endpoint. */
module BlacklistApi {
  import opened Wrappers
  import opened Text

  /** The POST body `{ number, intent }`; a field the client left out is `None`. */
  datatype PostBody = PostBody(number: Option<string>, intent: Option<string>)

  datatype Reply =
    | Numbers(numbers: seq<string>)            // 200 { numbers }
    | Applied(number: string, intent: string)  // 200 { status: 'ok', number, intent, executionResult }
    | Failure(status: int, message: string)    // 400 or 500 { error }
    | MethodNotAllowed                         // 405, Allow: GET, POST

  function StatusOf(reply: Reply): int
  {
    match reply
    case Numbers(_) => 200
    case Applied(_, _) => 200
    case Failure(status, _) => status
    case MethodNotAllowed => 405
  }

  const MissingFields := "Número de teléfono e intención son requeridos"
  const InvalidIntent := "Intención no válida"
  const UpdateFailed := "Error al actualizar la lista negra"

  /** The two 400 answers of a POST: a missing or empty field, then an intent
      other than `add` and `remove`. `None` when the body is accepted. */
  function Validate(body: PostBody): (err: Option<Reply>)
    ensures err.None? <==>
      Truthy(body.number) && Truthy(body.intent) && body.intent.value in {"add", "remove"}
    ensures err.Some? ==> err.value.Failure? && StatusOf(err.value) == 400
    ensures !(Truthy(body.number) && Truthy(body.intent)) ==> err == Some(Failure(400, MissingFields))
    ensures (Truthy(body.number) && Truthy(body.intent) && body.intent.value !in {"add", "remove"}) ==>
      err == Some(Failure(400, InvalidIntent))
  {
    if !Truthy(body.number) || !Truthy(body.intent) then Some(Failure(400, MissingFields))
    else if body.intent.value == "add" || body.intent.value == "remove" then None
    else Some(Failure(400, InvalidIntent))
  }

  /** `updateOne({ number }, { $set: { number } }, { upsert: true })`: an entry
      that is already stored is left alone, a new one is appended. */
  function Upsert(entries: seq<string>, n: string): (r: seq<string>)
    ensures n in entries ==> r == entries
    ensures n !in entries ==> r == entries + [n]
  {
    if n in entries then entries else entries + [n]
  }

  /** Position of the first entry equal to `n`, or `|entries|` when there is none. */
  function FirstIndex(entries: seq<string>, n: string): (k: nat)
    ensures k <= |entries|
    ensures k < |entries| ==> entries[k] == n
    ensures n !in entries[..k]
  {
    if entries == [] then 0
    else if entries[0] == n then 0
    else
      var k := 1 + FirstIndex(entries[1..], n);
      assert entries[..k] == [entries[0]] + entries[1..][..k - 1];
      k
  }

  /** `deleteOne({ number })`: the first entry equal to `n` goes, the others stay in order. */
  function DeleteOne(entries: seq<string>, n: string): (r: seq<string>)
    ensures multiset(r) == multiset(entries) - multiset{n}
    ensures n !in entries ==> r == entries
    ensures n in entries ==>
      (var k := FirstIndex(entries, n); r == entries[..k] + entries[k + 1..])
  {
    var k := FirstIndex(entries, n);
    if k == |entries| then
      assert entries[..k] == entries;
      entries
    else
      assert entries == entries[..k] + [entries[k]] + entries[k + 1..];
      entries[..k] + entries[k + 1..]
  }

  /** The store change a valid POST makes. */
  function Apply(entries: seq<string>, n: string, intent: string): seq<string>
  {
    if intent == "add" then Upsert(entries, n) else DeleteOne(entries, n)
  }

  /** Adding a number leaves it stored exactly once, and keeps the entries distinct. */
  lemma AddLeavesOne(entries: seq<string>, n: string)
    requires Distinct(entries)
    ensures Distinct(Upsert(entries, n))
    ensures multiset(Upsert(entries, n))[n] == 1
  {
    var r := Upsert(entries, n);
    if n in entries {
      var k :| 0 <= k < |entries| && entries[k] == n;
      DistinctCount(entries, k);
    } else {
      assert multiset(r) == multiset(entries) + multiset{n};
    }
  }

  /** In a list without repetitions, the element at position `k` occurs once. */
  lemma {:induction false} DistinctCount(s: seq<string>, k: int)
    requires Distinct(s) && 0 <= k < |s|
    ensures multiset(s)[s[k]] == 1
  {
    assert s == s[..k] + [s[k]] + s[k + 1..];
    assert s[k] !in s[..k];
    assert s[k] !in s[k + 1..];
    assert multiset(s) == multiset(s[..k]) + multiset{s[k]} + multiset(s[k + 1..]);
  }

  /** Taking one element out of a list without repetitions leaves a list without repetitions. */
  lemma DistinctRemoval(s: seq<string>, k: int)
    requires Distinct(s) && 0 <= k < |s|
    ensures Distinct(s[..k] + s[k + 1..])
  {
    var r := s[..k] + s[k + 1..];
    forall i, j | 0 <= i < j < |r|
      ensures r[i] != r[j]
    {
      var i' := if i < k then i else i + 1;
      var j' := if j < k then j else j + 1;
      assert r[i] == s[i'] && r[j] == s[j'];
    }
  }

  /** Adding twice is adding once. */
  lemma AddIdempotent(entries: seq<string>, n: string)
    ensures Upsert(Upsert(entries, n), n) == Upsert(entries, n)
  {
  }

  /** Removing a number from a register without repetitions leaves it absent
      and the register without repetitions. */
  lemma RemoveLeavesNone(entries: seq<string>, n: string)
    requires Distinct(entries)
    ensures n !in DeleteOne(entries, n)
    ensures Distinct(DeleteOne(entries, n))
  {
    var r := DeleteOne(entries, n);
    if n in entries {
      var k := FirstIndex(entries, n);
      DistinctCount(entries, k);
      assert multiset(r)[n] == 0;
      DistinctRemoval(entries, k);
    }
  }

  /** Removing a number that was just added to a register that lacked it restores the register. */
  lemma RemoveUndoesAdd(entries: seq<string>, n: string)
    requires n !in entries
    ensures DeleteOne(Upsert(entries, n), n) == entries
  {
    var u := entries + [n];
    var k := FirstIndex(u, n);
    assert u[..|entries|] == entries;
    assert u[|entries|] == n;
    assert u[..|u|] == u;
    assert k == |entries|;
    assert u[..k] == entries;
  }

  class BlacklistCollection {
    var entries: seq<string>

    /** The register holds each number at most once; `add` keeps it so. */
    ghost predicate Valid()
      reads this
    {
      Distinct(entries)
    }

    constructor(initial: seq<string>)
      ensures entries == initial
      ensures Distinct(initial) ==> Valid()
    {
      entries := initial;
    }

    /** GET: the `number` of every stored entry. */
    method List() returns (numbers: seq<string>)
      ensures numbers == entries
    {
      numbers := entries;
    }

    /** The whole handler, given whether the database write (`updateOne` or
        `deleteOne`) succeeds and whether the external execution endpoint
        answers ok. `synced` is the body sent to that endpoint, when one is sent. */
    method Handle(verb: string, body: PostBody, writeOk: bool, syncOk: bool)
      returns (reply: Reply, synced: Option<PostBody>)
      modifies this
      ensures verb == "GET" ==>
        reply == Numbers(old(entries)) && entries == old(entries) && synced == None
      ensures (verb == "POST" && Validate(body).Some?) ==>
        reply == Validate(body).value && entries == old(entries) && synced == None
      ensures (verb == "POST" && Validate(body).None? && !writeOk) ==>
        reply == Failure(500, UpdateFailed) && entries == old(entries) && synced == None
      ensures (verb == "POST" && Validate(body).None? && writeOk) ==>
        entries == Apply(old(entries), body.number.value, body.intent.value) &&
        synced == Some(body) &&
        reply == (if syncOk then Applied(body.number.value, body.intent.value) else Failure(500, UpdateFailed))
      ensures verb != "GET" && verb != "POST" ==>
        reply == MethodNotAllowed && entries == old(entries) && synced == None
      ensures old(Valid()) ==> Valid()
      ensures (old(Valid()) && verb == "POST" && Validate(body).None? && writeOk) ==>
        (body.intent.value == "add" ==> multiset(entries)[body.number.value] == 1) &&
        (body.intent.value == "remove" ==> body.number.value !in entries)
    {
      synced := None;
      if verb == "GET" {
        var numbers := List();
        reply := Numbers(numbers);
      } else if verb == "POST" {
        var err := Validate(body);
        if err.Some? {
          return err.value, None;
        }
        var number, intent := body.number.value, body.intent.value;
        if !writeOk {
          // the rejected write lands in the catch: no change, no external call
          return Failure(500, UpdateFailed), None;
        }
        if intent == "add" {
          if Valid() { AddLeavesOne(entries, number); }
          entries := Upsert(entries, number);
        } else {
          if Valid() { RemoveLeavesNone(entries, number); }
          entries := DeleteOne(entries, number);
        }
        // the store has changed before the external endpoint is called
        synced := Some(body);
        if syncOk {
          reply := Applied(number, intent);
        } else {
          reply := Failure(500, UpdateFailed);
        }
      } else {
        reply := MethodNotAllowed;
      }
    }
  }
}
