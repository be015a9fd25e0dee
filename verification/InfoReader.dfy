/**
 * Reading many parameters in few requests (infra/device/info_repository.py:120-144): a group that cannot be read
 * is split, down to single keys.
 */
module InfoReader {
  import opened Tasks
  import opened Text

  type Key = string
  type Values = map<Key, string>

  predicate Clean(items: seq<Key>) {
    forall i :: 0 <= i < |items| ==> items[i] != "" && Strip(items[i]) == items[i]
  }

  lemma {:induction false} StripRightKeeps(s: string)
    ensures StripRight(s) <= s
    ensures StripRight(s) == "" || !IsSpace(StripRight(s)[|StripRight(s)| - 1])
  {
    if s == "" || !IsSpace(s[|s| - 1]) {
    } else {
      StripRightKeeps(s[..|s| - 1]);
    }
  }

  lemma {:induction false} StripLeftKeeps(s: string)
    ensures StripLeft(s) == "" || !IsSpace(StripLeft(s)[0])
  {
    if s == "" || !IsSpace(s[0]) {
    } else {
      StripLeftKeeps(s[1..]);
    }
  }

  lemma StripTwice(s: string)
    ensures Strip(Strip(s)) == Strip(s)
  {
    StripLeftKeeps(s);
    StripRightKeeps(StripLeft(s));
  }

  lemma {:induction false} NonBlankIsClean(keys: seq<Key>)
    ensures Clean(NonBlank(keys))
  {
    hide Strip;
    if keys == [] {
    } else {
      StripTwice(keys[0]);
      NonBlankIsClean(keys[1..]);
    }
  }

  lemma {:induction false} CleanStays(items: seq<Key>)
    requires Clean(items)
    ensures NonBlank(items) == items
  {
    hide Strip;
    if items == [] {
    } else {
      CleanStays(items[1..]);
      assert items == [items[0]] + items[1..];
    }
  }

  /** `_split_keys` of clean keys. */
  function Chunks(items: seq<Key>, size: nat): (chunks: seq<seq<Key>>)
    requires size > 0
    ensures forall i :: 0 <= i < |chunks| ==> 0 < |chunks[i]| <= size
    ensures forall i :: 0 <= i < |chunks| - 1 ==> |chunks[i]| == size
  {
    if items == [] then []
    else if |items| <= size then [items]
    else [items[..size]] + Chunks(items[size..], size)
  }

  function Joined(chunks: seq<seq<Key>>): seq<Key> {
    if chunks == [] then [] else chunks[0] + Joined(chunks[1..])
  }

  lemma {:induction false} ChunksJoin(items: seq<Key>, size: nat)
    requires size > 0
    ensures Joined(Chunks(items, size)) == items
    ensures |items| > size ==> |Chunks(items, size)| >= 2
  {
    if |items| > size {
      ChunksJoin(items[size..], size);
      assert items == items[..size] + items[size..];
    } else if items != [] {
      assert [items][1..] == [];
    }
  }

  ghost function KeySet(items: seq<Key>): set<Key> {
    set k | k in items
  }

  /**
   * The camera behind the client. When `groupwise`, a request fails exactly when it holds a key that is not
   * readable; otherwise any request may fail, and any value may come back. `requests` is history.
   */
  class Client {
    const groupwise: bool
    const readable: Key -> bool
    const value: Key -> string
    var requests: seq<seq<Key>>

    constructor (groupwise: bool, readable: Key -> bool, value: Key -> string)
      ensures requests == []
    {
      this.groupwise, this.readable, this.value := groupwise, readable, value;
      requests := [];
    }

    /** `read_param_values`: an entry for every requested key, or an error. */
    method ReadParamValues(items: seq<Key>) returns (result: Option<Values>)
      modifies this
      ensures requests == old(requests) + [items]
      ensures result.Some? ==> result.value.Keys == KeySet(items)
      ensures groupwise ==> (result.Some? <==> forall k :: k in items ==> readable(k))
      ensures groupwise && result.Some? ==> forall k :: k in items ==> result.value[k] == value(k)
    {
      requests := requests + [items];
      var ok := true;
      var out: Values := map[];
      for i := 0 to |items|
        invariant requests == old(requests) + [items]
        invariant out.Keys == KeySet(items[..i])
        invariant groupwise ==> (ok <==> forall k :: k in items[..i] ==> readable(k))
        invariant groupwise ==> forall k :: k in items[..i] ==> out[k] == value(k)
      {
        var answered, answer := readable(items[i]), value(items[i]);
        if !groupwise {
          answered, answer := *, *;
        }
        assert items[..i + 1] == items[..i] + [items[i]];
        ok := ok && answered;
        out := out[items[i] := answer];
      }
      assert items[..|items|] == items;
      result := if ok then Some(out) else None;
    }

    /** What reading the keys one at a time gives: an unreadable key reads as empty. */
    ghost function OneByOne(items: seq<Key>): Values {
      map k | k in items :: if readable(k) then value(k) else ""
    }

    /**
     * `_read_readparam_kv_best_effort`: an entry for exactly the non-blank keys, in fewer than twice as many
     * requests as there are keys; and the same as reading them one by one when failures are groupwise.
     */
    method ReadBestEffort(keys: seq<Key>, chunkSize: int) returns (kv: Values)
      modifies this
      ensures kv.Keys == KeySet(NonBlank(keys))
      ensures old(requests) <= requests
      ensures NonBlank(keys) == [] ==> requests == old(requests)
      ensures NonBlank(keys) != [] ==> |requests| - |old(requests)| <= 2 * |NonBlank(keys)| - 1
      ensures groupwise ==> kv == OneByOne(NonBlank(keys))
      ensures NonBlank(keys) != [] ==> |requests| > |old(requests)| && requests[|old(requests)|] == NonBlank(keys)
      ensures |requests| > |old(requests)| + 1 ==>
                var half := |NonBlank(keys)| / 2;
                var size := if chunkSize < 1 then 1 else if chunkSize < half then chunkSize else half;
                |NonBlank(keys)| >= 2 && requests[|old(requests)| + 1] == NonBlank(keys)[..size]
      decreases |NonBlank(keys)|, 1
    {
      hide NonBlank, Chunks;
      var items := NonBlank(keys);
      NonBlankIsClean(keys);
      if items == [] {
        return map[];
      }
      var answer := ReadParamValues(items);
      if answer.Some? {
        assert groupwise ==> answer.value == OneByOne(items);
        return answer.value;
      }
      if |items| == 1 {
        kv := map[items[0] := ""];
        assert items == [items[0]];
        assert groupwise ==> !readable(items[0]);
        return;
      }
      var half := |items| / 2;
      var least := if chunkSize < half then chunkSize else half;
      kv := ReadSplit(items, if least < 1 then 1 else least);
    }

    /** Reads the chunks of a group that failed as a whole. */
    method ReadSplit(items: seq<Key>, size: nat) returns (kv: Values)
      requires Clean(items) && 1 <= size < |items|
      modifies this
      ensures kv.Keys == KeySet(items)
      ensures old(requests) <= requests && |requests| - |old(requests)| <= 2 * |items| - 2
      ensures groupwise ==> kv == OneByOne(items)
      ensures |requests| > |old(requests)| && requests[|old(requests)|] == items[..size]
      decreases |items|, 0
    {
      hide NonBlank, Chunks, Clean, KeySet, OneByOne;
      var chunks := Chunks(items, size);
      ChunksJoin(items, size);
      kv := map[];
      ghost var done: seq<Key> := [];
      MergeNone();
      for i := 0 to |chunks|
        invariant items == done + Joined(chunks[i..])
        invariant kv.Keys == KeySet(done)
        invariant old(requests) <= requests
        invariant |requests| - |old(requests)| <= 2 * |done| - i
        invariant i > 0 ==> |requests| > |old(requests)| && requests[|old(requests)|] == items[..size]
        invariant groupwise ==> kv == OneByOne(done)
      {
        var chunk := chunks[i];
        assert chunks[i..][1..] == chunks[i + 1..];
        CleanPart(items, done, chunk, Joined(chunks[i + 1..]));
        CleanStays(chunk);
        var part := ReadBestEffort(chunk, size);
        MergeOne(done, chunk);
        kv := kv + part;
        done := done + chunk;
      }
      assert done == items;
    }

    lemma MergeNone()
      ensures KeySet([]) == {} && OneByOne([]) == map[]
    {
    }

    lemma MergeOne(done: seq<Key>, chunk: seq<Key>)
      ensures OneByOne(done) + OneByOne(chunk) == OneByOne(done + chunk)
      ensures KeySet(done) + KeySet(chunk) == KeySet(done + chunk)
    {
    }
  }

  lemma CleanPart(items: seq<Key>, a: seq<Key>, b: seq<Key>, c: seq<Key>)
    requires Clean(items) && items == a + (b + c)
    ensures Clean(b)
  {
    forall i | 0 <= i < |b| ensures b[i] != "" && Strip(b[i]) == b[i] {
      assert items[|a| + i] == b[i];
    }
  }
}
