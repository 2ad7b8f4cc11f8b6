/** How the builders cut their work: `flush_count` items to an invocation. */
module Batching {
  import opened Common
  import opened NorthDb

  /** The items a `batch` argument lets pass between two flushes. */
  function BatchSize(batch: int): (b: nat)
    ensures 1 <= b
  {
    if batch < 1 then 1 else batch
  }

  /** An invocation without commands is not sent. */
  function Sent(cmds: seq<Cmd>): seq<seq<Cmd>> {
    if cmds == [] then [] else [cmds]
  }

  /** The invocations that carry `items`, b items each and the rest in the last one. */
  function Chunks(items: seq<seq<Cmd>>, b: nat): seq<seq<Cmd>>
    requires 1 <= b
    decreases |items|
  {
    if |items| <= b then Sent(Flatten(items))
    else Sent(Flatten(items[..b])) + Chunks(items[b..], b)
  }

  lemma FlattenSent(cmds: seq<Cmd>)
    ensures Flatten(Sent(cmds)) == cmds
  {
    if cmds != [] {
      assert Flatten([cmds]) == cmds + Flatten([]);
    }
  }

  /** Nothing is lost, repeated or reordered by cutting, whatever the batch size. */
  lemma {:induction false} ChunksKeepOrder(items: seq<seq<Cmd>>, b: nat)
    requires 1 <= b
    ensures Flatten(Chunks(items, b)) == Flatten(items)
    decreases |items|
  {
    if |items| <= b {
      FlattenSent(Flatten(items));
    } else {
      ChunksKeepOrder(items[b..], b);
      FlattenSent(Flatten(items[..b]));
      FlattenConcat(Sent(Flatten(items[..b])), Chunks(items[b..], b));
      FlattenConcat(items[..b], items[b..]);
      assert items == items[..b] + items[b..];
    }
  }

  /** Invocation t carries the items from t * batch on, `batch` of them or the rest; with a batch below one
      every item goes by itself. */
  lemma ChunkAt(items: seq<seq<Cmd>>, batch: int, t: nat)
    requires forall i | 0 <= i < |items| :: items[i] != []
    ensures var chunks := Chunks(items, BatchSize(batch));
            && (batch >= 1 ==> (t < |chunks| <==> t * batch < |items|))
            && (batch >= 1 && t < |chunks| ==> chunks[t] == Flatten(items[t * batch..Min(t * batch + batch, |items|)]))
            && (batch < 1 ==> (t < |chunks| <==> t < |items|) && (t < |chunks| ==> chunks[t] == items[t]))
  {
    hide Chunks, Flatten;
    if batch >= 1 {
      ChunkFrom(items, batch, t, t * batch);
    } else {
      ChunkFrom(items, 1, t, t);
      if t < |items| {
        assert items[t..t + 1] == [items[t]];
        FlattenOne(items[t]);
      }
    }
  }

  lemma FlattenOne(item: seq<Cmd>)
    ensures Flatten([item]) == item
  {
    assert Flatten([item]) == item + Flatten([]);
  }

  lemma {:induction false} ChunkFrom(items: seq<seq<Cmd>>, b: nat, t: nat, s: nat)
    requires 1 <= b && s == t * b && forall i | 0 <= i < |items| :: items[i] != []
    ensures t < |Chunks(items, b)| <==> s < |items|
    ensures t < |Chunks(items, b)| ==> Chunks(items, b)[t] == Flatten(items[s..Min(s + b, |items|)])
    decreases t
  {
    hide Flatten, Sent, Chunks;
    if items == [] {
      NoChunk(b);
    } else if |items| <= b {
      FirstItems(items, |items|);
      SingleChunk(items, b);
      if t == 0 {
        assert items[0..|items|] == items;
      } else {
        MulSucc(b, t - 1);
      }
    } else {
      FirstItems(items, b);
      FirstChunk(items, b);
      if t > 0 {
        MulSucc(b, t - 1);
        ChunkFrom(items[b..], b, t - 1, s - b);
        if s < |items| {
          LaterItems(items, b, s - b);
        }
      }
    }
  }

  lemma NoChunk(b: nat)
    requires 1 <= b
    ensures Chunks([], b) == []
  {
  }

  lemma SingleChunk(items: seq<seq<Cmd>>, b: nat)
    requires 1 <= b && |items| <= b
    ensures Chunks(items, b) == Sent(Flatten(items))
  {
  }

  lemma LaterItems(items: seq<seq<Cmd>>, b: nat, i: nat)
    requires b < |items| && b + i < |items|
    ensures items[b..][i..Min(i + b, |items| - b)] == items[b + i..Min(b + i + b, |items|)]
  {
  }

  /** Items with commands in them make an invocation. */
  lemma FirstItems(items: seq<seq<Cmd>>, n: nat)
    requires 0 < n <= |items| && items[0] != []
    ensures Flatten(items[..n]) != [] && Sent(Flatten(items[..n])) == [Flatten(items[..n])]
    ensures n == |items| ==> items[..n] == items
  {
    assert items[..n][0] == items[0];
  }

  /** Whole chunks first: cutting after a multiple of b cuts nothing in two. */
  lemma {:induction false} ChunksSplit(items: seq<seq<Cmd>>, rest: seq<seq<Cmd>>, b: nat)
    requires 1 <= b && |items| % b == 0
    ensures Chunks(items + rest, b) == Chunks(items, b) + Chunks(rest, b)
    decreases |items|
  {
    hide Flatten, Sent, Chunks;
    if items == [] {
      assert items + rest == rest;
      NoChunk(b);
    } else {
      if |items| <= b {
        FirstMultiple(|items|, b);
      }
      LastMultiple(|items|, b);
      assert (items + rest)[..b] == items[..b] && (items + rest)[b..] == items[b..] + rest;
      ChunksSplit(items[b..], rest, b);
      FirstChunk(items, b);
      FirstChunk(items + rest, b);
    }
  }

  /** A first chunk that is full, whether or not it is the only one. */
  lemma FirstChunk(items: seq<seq<Cmd>>, b: nat)
    requires 1 <= b <= |items|
    ensures Chunks(items, b) == Sent(Flatten(items[..b])) + Chunks(items[b..], b)
  {
    if |items| == b {
      assert items[..b] == items && items[b..] == [];
    }
  }

  /** For every batch size a builder's invocations leave the database that running its commands one
      by one leaves, and they are refused exactly when one of those is. */
  lemma BatchSizeIrrelevant(db: Db, items: seq<seq<Cmd>>, batch: int)
    ensures var cut := RunBatches(db, Chunks(items, BatchSize(batch)));
            var now := RunBatches(db, Singletons(Flatten(items)));
            cut.ok == now.ok && (now.ok ==> cut.db == now.db)
  {
    ChunksKeepOrder(items, BatchSize(batch));
    BatchingRefinesImmediate(db, Chunks(items, BatchSize(batch)));
  }

  /** Where a builder's loop is after i items with `flushCount` items to go: whole chunks are out. */
  function OutAfter(i: nat, batch: int, flushCount: int): int {
    if batch < 1 then i else i - (batch - flushCount)
  }

  ghost predicate LoopAt(items: seq<seq<Cmd>>, i: nat, batch: int, flushCount: int,
                         out: seq<seq<Cmd>>, waiting: seq<Cmd>) {
    var o := OutAfter(i, batch, flushCount);
    && i <= |items| && (if batch < 1 then flushCount == batch else 1 <= flushCount <= batch)
    && 0 <= o <= i && o % BatchSize(batch) == 0
    && out == Chunks(items[..o], BatchSize(batch))
    && waiting == Flatten(items[o..i])
  }

  lemma LoopStart(items: seq<seq<Cmd>>, batch: int)
    ensures LoopAt(items, 0, batch, batch, [], [])
  {
    assert items[..0] == [];
    assert items[0..0] == [];
  }

  /** One item issued; then the flush, if the count has run out. */
  lemma LoopStep(items: seq<seq<Cmd>>, i: nat, batch: int, flushCount: int,
                 out: seq<seq<Cmd>>, waiting: seq<Cmd>)
    requires i < |items| && LoopAt(items, i, batch, flushCount, out, waiting)
    ensures flushCount - 1 >= 1 ==> LoopAt(items, i + 1, batch, flushCount - 1, out, waiting + items[i])
    ensures flushCount - 1 < 1 ==> LoopAt(items, i + 1, batch, batch, out + Sent(waiting + items[i]), [])
  {
    var o, b := OutAfter(i, batch, flushCount), BatchSize(batch);
    assert items[o..i + 1] == items[o..i] + [items[i]];
    FlattenSnoc(items[o..i], items[i]);
    if flushCount - 1 < 1 {
      assert i + 1 - o == b;
      NextMultiple(o, b);
      assert items[..i + 1] == items[..o] + items[o..i + 1];
      ChunksSplit(items[..o], items[o..i + 1], b);
      assert Chunks(items[o..i + 1], b) == Sent(Flatten(items[o..i + 1]));
      assert items[i + 1..i + 1] == [];
    }
  }

  /** The flush after the loop sends the rest. */
  lemma LoopEnd(items: seq<seq<Cmd>>, batch: int, flushCount: int, out: seq<seq<Cmd>>, waiting: seq<Cmd>)
    requires LoopAt(items, |items|, batch, flushCount, out, waiting)
    ensures out + Sent(waiting) == Chunks(items, BatchSize(batch))
  {
    var o, b := OutAfter(|items|, batch, flushCount), BatchSize(batch);
    assert items == items[..o] + items[o..];
    ChunksSplit(items[..o], items[o..], b);
    assert items[o..|items|] == items[o..];
    assert |items[o..]| <= b;
  }
}
