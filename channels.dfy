/** Validation of the user's 1-based channel choice against the image's channel
    count (scripts/extract_tagged_rois.py, get_export_data). */
module Channels {
  import opened Common

  /** A user channel index is accepted when it lies in 1..sizeC. */
  predicate Accepted(ch: int, sizeC: int)
  {
    1 <= ch <= sizeC
  }

  /** The 0-based channel indexes kept from `channels`, in input order. */
  function ValidChannels(channels: seq<int>, sizeC: int): (r: seq<nat>)
    ensures |r| <= |channels|
    ensures forall k :: 0 <= k < |r| ==> r[k] < sizeC
    decreases |channels|
  {
    if channels == [] then []
    else
      var kept := ValidChannels(DropLast(channels), sizeC);
      var ch := Last(channels);
      if Accepted(ch, sizeC) then kept + [ch - 1] else kept
  }

  /** One diagnostic per rejected index, in input order. */
  function Rejections(channels: seq<int>, sizeC: int): (r: seq<Diagnostic>)
    ensures forall k :: 0 <= k < |r| ==>
      r[k].ChannelOutOfRange? && r[k].sizeC == sizeC && !Accepted(r[k].channel, sizeC)
    decreases |channels|
  {
    if channels == [] then []
    else
      var logged := Rejections(DropLast(channels), sizeC);
      var ch := Last(channels);
      if Accepted(ch, sizeC) then logged else logged + [ChannelOutOfRange(ch, sizeC)]
  }

  /** The loop that builds `ch_indexes`, logging every index it drops. */
  method ResolveChannels(channels: seq<int>, sizeC: int) returns (chIndexes: seq<nat>, log: seq<Diagnostic>)
    ensures chIndexes == ValidChannels(channels, sizeC)
    ensures log == Rejections(channels, sizeC)
  {
    chIndexes, log := [], [];
    for i := 0 to |channels|
      invariant chIndexes == ValidChannels(channels[..i], sizeC)
      invariant log == Rejections(channels[..i], sizeC)
    {
      var ch := channels[i];
      assert DropLast(channels[..i + 1]) == channels[..i];
      if ch < 1 || ch > sizeC {
        log := log + [ChannelOutOfRange(ch, sizeC)];
      } else {
        chIndexes := chIndexes + [ch - 1];
      }
    }
    assert channels[..|channels|] == channels;
  }

  /** Validation works element by element: it commutes with concatenation, so the
      relative order of the accepted indexes is the input order. */
  lemma {:induction false} ValidChannelsAppend(a: seq<int>, b: seq<int>, sizeC: int)
    ensures ValidChannels(a + b, sizeC) == ValidChannels(a, sizeC) + ValidChannels(b, sizeC)
    decreases |b|
  {
    if b == [] {
      assert a + b == a;
    } else {
      assert DropLast(a + b) == a + DropLast(b);
      assert Last(a + b) == Last(b);
      ValidChannelsAppend(a, DropLast(b), sizeC);
    }
  }

  /** The channel numbers named by the out-of-range diagnostics of a log. */
  function LoggedChannels(log: seq<Diagnostic>): seq<int>
    decreases |log|
  {
    if log == [] then []
    else
      var front := LoggedChannels(DropLast(log));
      if Last(log).ChannelOutOfRange? then front + [Last(log).channel] else front
  }

  /** The log names exactly the rejected inputs, duplicates included: an accepted
      index is never logged, and a rejected one is logged once per occurrence. */
  lemma {:induction false} RejectionsCount(channels: seq<int>, sizeC: int, v: int)
    ensures multiset(LoggedChannels(Rejections(channels, sizeC)))[v]
         == if Accepted(v, sizeC) then 0 else multiset(channels)[v]
    decreases |channels|
  {
    if channels != [] {
      var init, ch := DropLast(channels), Last(channels);
      var logged := Rejections(init, sizeC);
      RejectionsCount(init, sizeC, v);
      assert channels == init + [ch];
      CountSnoc(init, ch, v);
      if Accepted(ch, sizeC) {
        assert Rejections(channels, sizeC) == logged;
      } else {
        var d := ChannelOutOfRange(ch, sizeC);
        assert Rejections(channels, sizeC) == logged + [d];
        assert DropLast(logged + [d]) == logged;
        assert LoggedChannels(logged + [d]) == LoggedChannels(logged) + [ch];
        CountSnoc(LoggedChannels(logged), ch, v);
      }
    }
  }

  /** Every occurrence of an input index is either kept (shifted down by one) or
      logged, never both; kept and logged entries together number the inputs. */
  lemma ValidChannelsPartition(channels: seq<int>, sizeC: int, v: int)
    ensures |ValidChannels(channels, sizeC)| + |Rejections(channels, sizeC)| == |channels|
    ensures Accepted(v, sizeC) ==>
      multiset(ValidChannels(channels, sizeC))[v - 1] == multiset(channels)[v]
      && multiset(LoggedChannels(Rejections(channels, sizeC)))[v] == 0
    ensures !Accepted(v, sizeC) ==>
      multiset(LoggedChannels(Rejections(channels, sizeC)))[v] == multiset(channels)[v]
      && (v >= 1 ==> multiset(ValidChannels(channels, sizeC))[v - 1] == 0)
  {
    PartitionLength(channels, sizeC);
    RejectionsCount(channels, sizeC, v);
    if v >= 1 {
      ValidChannelsCount(channels, sizeC, v - 1);
    }
  }

  lemma {:induction false} PartitionLength(channels: seq<int>, sizeC: int)
    ensures |ValidChannels(channels, sizeC)| + |Rejections(channels, sizeC)| == |channels|
    decreases |channels|
  {
    if channels != [] {
      PartitionLength(DropLast(channels), sizeC);
    }
  }

  /** The kept indexes are exactly the accepted inputs shifted down by one,
      duplicates included: v occurs as often as v+1 did, when v+1 is accepted. */
  lemma {:induction false} ValidChannelsCount(channels: seq<int>, sizeC: int, v: nat)
    ensures multiset(ValidChannels(channels, sizeC))[v]
         == if v < sizeC then multiset(channels)[v + 1] else 0
    decreases |channels|
  {
    if channels != [] {
      var init, ch := DropLast(channels), Last(channels);
      var kept := ValidChannels(init, sizeC);
      ValidChannelsCount(init, sizeC, v);
      assert channels == init + [ch];
      CountSnoc(init, ch, v + 1);
      if Accepted(ch, sizeC) {
        assert ValidChannels(channels, sizeC) == kept + [ch - 1];
        CountSnoc(kept, ch - 1, v);
      } else {
        assert ValidChannels(channels, sizeC) == kept;
      }
    }
  }

  /** Appending x adds one occurrence of x and none of anything else. */
  lemma CountSnoc<T>(s: seq<T>, x: T, y: T)
    ensures multiset(s + [x])[y] == multiset(s)[y] + (if x == y then 1 else 0)
  {
    assert multiset(s + [x]) == multiset(s) + multiset{x};
  }

  /** Indexes [0, 1, 9] on a 4-channel image: only 1 survives, as 0, and two
      diagnostics are logged. */
  lemma ValidChannelsExample()
    ensures ValidChannels([0, 1, 9], 4) == [0]
    ensures Rejections([0, 1, 9], 4) == [ChannelOutOfRange(0, 4), ChannelOutOfRange(9, 4)]
  {
    assert DropLast([0, 1, 9]) == [0, 1];
    assert DropLast([0, 1]) == [0];
    assert DropLast([0]) == [];
  }
}
