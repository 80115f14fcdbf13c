/** The cancellation ledger: which cancel func a request id finds
    (internal/protocol/cancellation.go). */
module Ledger {
  import opened Tasks

  /** A JSON-RPC id as decoded from the wire. Numbers, and the values the specification does not allow,
      are known by the text Go's %v verb gives them. */
  datatype RequestID = Null | Str(text: string) | Number(text: string) | OtherValue(text: string)

  /** normalizeID. */
  function Key(id: RequestID): Option<string> {
    if id.Null? then None else Some(id.text)
  }

  /** The key forgets the wire type: two ids collide exactly when their texts agree, so the string "1"
      and the number 1 do, contrary to the function's own comment. */
  lemma KeysCollideIff(a: RequestID, b: RequestID)
    ensures Key(a).Some? && Key(a) == Key(b) <==> !a.Null? && !b.Null? && a.text == b.text
    ensures Key(Str("1")) == Key(Number("1")) && Str("1") != Number("1")
  {
  }

  /** Register: the new entry, and the cancel func it displaced. */
  function Enrolled(pending: map<string, nat>, id: RequestID, cancel: nat): (map<string, nat>, Option<nat>) {
    match Key(id)
    case None => (pending, None)
    case Some(key) => (pending[key := cancel], Found(pending, key))
  }

  function Found(pending: map<string, nat>, key: string): Option<nat> {
    if key in pending then Some(pending[key]) else None
  }

  /** Cancel: the entry is removed and its cancel func returned for firing. */
  function Revoked(pending: map<string, nat>, id: RequestID): (map<string, nat>, Option<nat>) {
    match Key(id)
    case None => (pending, None)
    case Some(key) => (pending - {key}, Found(pending, key))
  }

  /** Done: the entry under the key is removed, whoever it belongs to. */
  function Cleared(pending: map<string, nat>, id: RequestID): map<string, nat> {
    match Key(id)
    case None => pending
    case Some(key) => pending - {key}
  }

  /** Cancel funcs are known by the number of the job they belong to; `fired` is the history of those
      invoked. */
  class CancellationRegistry {
    var pending: map<string, nat>
    ghost var fired: seq<nat>

    constructor ()
      ensures pending == map[] && fired == []
    {
      pending := map[];
      fired := [];
    }

    method Register(id: RequestID, cancel: nat)
      modifies this
      ensures pending == Enrolled(old(pending), id, cancel).0
      ensures fired == old(fired) + match Enrolled(old(pending), id, cancel).1 case None => [] case Some(c) => [c]
    {
      if id.Null? {
        return;
      }
      var key := id.text;
      var known := key in pending;
      var prev := if known then pending[key] else cancel;
      pending := pending[key := cancel];
      if known {
        Fire(prev);
      }
    }

    method Cancel(id: RequestID) returns (found: bool)
      modifies this
      ensures found <==> Revoked(old(pending), id).1.Some?
      ensures pending == Revoked(old(pending), id).0
      ensures fired == old(fired) + match Revoked(old(pending), id).1 case None => [] case Some(c) => [c]
    {
      if id.Null? {
        return false;
      }
      var key := id.text;
      found := key in pending;
      if found {
        var cancel := pending[key];
        pending := pending - {key};
        Fire(cancel);
      } else {
        assert pending - {key} == pending;
      }
    }

    method Done(id: RequestID)
      modifies this`pending
      ensures pending == Cleared(old(pending), id)
    {
      if !id.Null? {
        pending := pending - {id.text};
      }
    }

    ghost method Fire(cancel: nat)
      modifies this`fired
      ensures fired == old(fired) + [cancel]
    {
      fired := fired + [cancel];
    }

    method Len() returns (n: nat)
      ensures n == |pending| && (n == 0 <==> pending == map[])
    {
      n := |pending|;
    }
  }
}
