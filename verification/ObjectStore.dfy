/**
The R2 client: HEAD verification, immutable upload, reading and listing, run against a
store that rival writers use at the same time and a network that may lose a request or
its answer. The script of rivals and faults is arbitrary.
*/
module ObjectStore {
  import opened Wrappers
  import opened Publication

  datatype Fault = NoFault | RequestLost | ResponseLost

  datatype Turn = Turn(rivals: seq<Step>, fault: Fault)

  datatype StoreError = Unavailable | Conflict | Missing | TooLarge | NotJson

  const MAX_SINGLE_PUT_BYTES := 5 * 1024 * 1024 * 1024

  datatype Upload = Upload(ref: Ref, reused: bool)

  class R2Store {
    const p: Protocol
    /** The writer of the machine that this client is, and the state it started in. */
    const me: nat
    ghost const start: System
    var sys: System
    var script: seq<Turn>
    /** The keys this client itself has put, in order. */
    ghost var wrote: seq<Key>

    constructor (p: Protocol, me: nat, sys: System, script: seq<Turn>)
      requires Inv(p, sys) && me < |sys.writers|
      ensures Valid() && this.p == p && this.start == this.sys == sys && this.script == script && wrote == []
    {
      this.p, this.me, this.start, this.sys, this.script, wrote := p, me, sys, sys, script, [];
      assert sys == Run(p, sys, []);
    }

    /**
     * Whatever this client and its rivals have done since the start is a run of the
     * publication machine. Every method below keeps this.
     */
    ghost predicate Valid()
      reads this
    {
      Inv(p, sys) && me < |sys.writers| && Reaches(p, start, sys)
    }

    /** No rival acts from here on. */
    ghost predicate Alone()
      reads this
    {
      forall turn | turn in script :: turn.rivals == []
    }

    /** No request and no answer is lost from here on. */
    ghost predicate Reliable()
      reads this
    {
      forall turn | turn in script :: turn.fault == NoFault
    }

    /** The state in which the next request meets the store, and what becomes of the request. */
    ghost function Met(): System
      reads this
    {
      if script == [] then sys else Run(p, sys, script[0].rivals)
    }

    ghost function Fate(): Fault
      reads this
    {
      if script == [] then NoFault else script[0].fault
    }

    method Interfere() returns (fault: Fault)
      requires Valid()
      modifies this`sys, this`script
      ensures Valid() && Grows(old(sys.store), sys.store)
      ensures sys == old(Met()) && fault == old(Fate()) && (old(script) != [] ==> script == old(script[1..]))
      ensures old(Alone()) ==> Alone() && sys == old(sys)
      ensures old(Reliable()) ==> Reliable() && fault == NoFault
    {
      fault := NoFault;
      if script != [] {
        RunInv(p, sys, script[0].rivals);
        ReachesMore(p, start, sys, script[0].rivals);
        fault := script[0].fault;
        sys := Run(p, sys, script[0].rivals);
        script := script[1..];
      }
    }

    /** `head_object`: None when nothing is there. */
    method Head(key: Key) returns (r: Result<Option<Object>, StoreError>)
      requires Valid()
      modifies this`sys, this`script
      ensures Valid() && Grows(old(sys.store), sys.store)
      ensures sys == old(Met())
      ensures r == if old(Fate()) == NoFault then Success(if key in sys.store then Some(sys.store[key]) else None) else Failure(Unavailable)
      ensures old(Alone()) ==> Alone() && sys == old(sys)
      ensures old(Reliable()) ==> Reliable() && r.Success?
    {
      var fault := Interfere();
      if fault != NoFault {
        return Failure(Unavailable);
      }
      r := Success(if key in sys.store then Some(sys.store[key]) else None);
    }

    /** True when the object is there as recorded, false when nothing is, Conflict otherwise. */
    method Verify(key: Key, bytes: nat, sha: string) returns (r: Result<bool, StoreError>)
      requires Valid()
      modifies this`sys, this`script
      ensures Valid() && Grows(old(sys.store), sys.store)
      ensures r.Success? ==> (r.value <==> Present(p, sys.store, Ref(key, bytes, sha)))
      ensures r.Success? && !r.value ==> key !in sys.store
      ensures r == Failure(Conflict) ==> key in sys.store && !Present(p, sys.store, Ref(key, bytes, sha))
      ensures r.Failure? ==> r.error in {Conflict, Unavailable}
      ensures sys == old(Met()) && (r == Failure(Unavailable) <==> old(Fate()) != NoFault)
      ensures old(Alone()) ==> Alone() && sys == old(sys)
      ensures old(Reliable()) ==> Reliable() && r != Failure(Unavailable)
    {
      var head :- Head(key);
      if head.None? {
        return Success(false);
      }
      if p.size(head.value.body) != bytes {
        return Failure(Conflict);
      }
      if head.value.sha != sha {
        return Failure(Conflict);
      }
      r := Success(true);
    }

    /** `put_object` with `If-None-Match: *`: true when it created the object, false when one was there. */
    method PutOnce(key: Key, body: Body) returns (r: Result<bool, StoreError>)
      requires Valid() && Supported(p, sys.store, key, body)
      modifies this
      ensures Valid() && Grows(old(sys.store), sys.store)
      ensures r.Failure? <==> old(Fate()) != NoFault
      ensures r.Failure? ==> r.error == Unavailable
      ensures sys == if old(Fate()) == RequestLost || key in old(Met()).store then old(Met()) else Run(p, old(Met()), PutSteps(p, me, key, body))
      ensures r.Success? ==> key in sys.store
      ensures r.Success? ==> r.value == (wrote != old(wrote))
      ensures r.Success? && r.value ==> sys.store[key].body == body
      ensures (wrote == old(wrote) || wrote == old(wrote) + [key])
      ensures old(key in sys.store) ==> wrote == old(wrote)
      ensures old(Alone()) ==>
                && Alone()
                && (sys.store == old(sys.store) || (old(key !in sys.store) && sys.store == WithObject(p, old(sys.store), key, body)))
                && (r.Success? && old(key !in sys.store) ==> sys.store == WithObject(p, old(sys.store), key, body))
      ensures old(Reliable()) ==> Reliable() && r.Success?
    {
      var fault := Interfere();
      assert Supported(p, sys.store, key, body);
      if fault == RequestLost {
        return Failure(Unavailable);
      }
      var created := key !in sys.store;
      if key !in sys.store {
        PutIsARun(p, sys, me, key, body);
        RunInv(p, sys, PutSteps(p, me, key, body));
        ReachesMore(p, start, sys, PutSteps(p, me, key, body));
        sys := Run(p, sys, PutSteps(p, me, key, body));
        wrote := wrote + [key];
      }
      r := if fault == ResponseLost then Failure(Unavailable) else Success(created);
    }

    /**
     * `upload_immutable_file` and `upload_immutable_json`: verify, put if absent, verify again.
     * Only files carry the single-part size limit.
     */
    method UploadImmutable(key: Key, body: Body) returns (r: Result<Upload, StoreError>)
      requires Valid() && Supported(p, sys.store, key, body)
      modifies this
      ensures Valid() && Grows(old(sys.store), sys.store)
      ensures r.Success? ==> r.value.ref == RefTo(p, key, body) && Present(p, sys.store, r.value.ref)
      ensures r.Success? && r.value.reused ==> wrote == old(wrote)
      ensures wrote == old(wrote) || (wrote == old(wrote) + [key] && old(key !in sys.store))
      ensures old(Alone()) && r.Success? ==> (r.value.reused <==> old(key in sys.store))
      ensures old(Alone()) ==>
                && Alone()
                && (sys.store == old(sys.store) || (old(key !in sys.store) && sys.store == WithObject(p, old(sys.store), key, body)))
                && (r.Success? && old(key !in sys.store) ==> sys.store == WithObject(p, old(sys.store), key, body))
      ensures old(Alone() && Reliable()) ==>
                && Reliable()
                && (r.Success? <==>
                      if old(key in sys.store) then old(Present(p, sys.store, RefTo(p, key, body)))
                      else body.Blob? ==> p.size(body) <= MAX_SINGLE_PUT_BYTES)
    {
      var size, digest := p.size(body), p.sha(body);
      var found :- Verify(key, size, digest);
      if found {
        return Success(Upload(Ref(key, size, digest), true));
      }
      if body.Blob? && size > MAX_SINGLE_PUT_BYTES {
        return Failure(TooLarge);
      }
      var _ :- PutOnce(key, body);
      found :- Verify(key, size, digest);
      if !found {
        return Failure(Missing);
      }
      r := Success(Upload(Ref(key, size, digest), false));
    }

    /** `read_json`: the stored document, its digest checked against the metadata. */
    method ReadJson(key: Key) returns (r: Result<Option<Body>, StoreError>)
      requires Valid()
      modifies this`sys, this`script
      ensures Valid() && Grows(old(sys.store), sys.store)
      ensures r.Success? && r.value.None? ==> key !in sys.store
      ensures r.Success? && r.value.Some? ==>
                key in sys.store && r.value.value == sys.store[key].body && r.value.value.Document?
      ensures r.Failure? ==> r.error == Unavailable || (r.error == NotJson && key in sys.store && sys.store[key].body.Blob?)
      ensures sys == old(Met()) && (r == Failure(Unavailable) <==> old(Fate()) != NoFault)
      ensures old(Alone()) ==> Alone() && sys == old(sys)
      ensures old(Reliable()) ==> Reliable() && r != Failure(Unavailable)
    {
      var fault := Interfere();
      if fault != NoFault {
        return Failure(Unavailable);
      }
      if key !in sys.store {
        return Success(None);
      }
      var found := sys.store[key];
      if found.sha != p.sha(found.body) {
        assert false;
      }
      if found.body.Blob? {
        return Failure(NotJson);
      }
      r := Success(Some(found.body));
    }

    /** `list_keys` on the whole prefix this store stands for. */
    method ListKeys() returns (r: Result<set<Key>, StoreError>)
      requires Valid()
      modifies this`sys, this`script
      ensures Valid() && Grows(old(sys.store), sys.store)
      ensures r.Success? ==> r.value == sys.store.Keys
      ensures r.Failure? ==> r.error == Unavailable
      ensures sys == old(Met()) && (r.Failure? <==> old(Fate()) != NoFault)
      ensures old(Alone()) ==> Alone() && sys == old(sys)
      ensures old(Reliable()) ==> Reliable() && r.Success?
    {
      var fault := Interfere();
      if fault != NoFault {
        return Failure(Unavailable);
      }
      r := Success(sys.store.Keys);
    }

    /** v2's `ensure_remote_immutable_json`: create once, or agree with whoever did. */
    method EnsureImmutableJson(key: Key, expected: Body) returns (r: Result<bool, StoreError>)
      requires Valid() && Supported(p, sys.store, key, expected) && expected.Document?
      modifies this
      ensures Valid() && Grows(old(sys.store), sys.store)
      ensures r.Success? ==> key in sys.store && sys.store[key].body == expected
      ensures r.Success? ==> r.value == (wrote != old(wrote))
      ensures r == Failure(Conflict) ==> key in sys.store && sys.store[key].body != expected && wrote == old(wrote)
      ensures old(Alone() && Reliable()) ==>
                (r.Success? <==> old(key !in sys.store || sys.store[key].body == expected))
    {
      var existing :- ReadJson(key);
      if existing.Some? {
        return if existing.value != expected then Failure(Conflict) else Success(false);
      }
      var created :- PutOnce(key, expected);
      if created {
        return Success(true);
      }
      existing :- ReadJson(key);
      r := if existing.None? || existing.value != expected then Failure(Conflict) else Success(false);
    }
  }
}
