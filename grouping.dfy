/** Grouping of channels by refresh rate, shared by the two interval maps
    (`new_intervals_map` in src-tauri/src/background.rs and `intervals_map`
    in src-tauri/src/fetcher_runtime.rs): the channels of one rate, in
    settings order, and the facts that make the map a partition. */
module Grouping {
  import Settings

  type Channel = Settings.Channel

  /** The channels whose refresh rate is `rate`, in input order. */
  function RateFilter(cs: seq<Channel>, rate: nat): (g: seq<Channel>)
    ensures |g| <= |cs|
    ensures forall c :: c in g <==> c in cs && c.refreshRateMs == rate
  {
    if cs == [] then []
    else
      var last := cs[|cs| - 1];
      assert cs == cs[..|cs| - 1] + [last];
      RateFilter(cs[..|cs| - 1], rate) + (if last.refreshRateMs == rate then [last] else [])
  }

  /** The distinct refresh rates: the keys of the interval map. */
  function Rates(cs: seq<Channel>): set<nat> {
    set c | c in cs :: c.refreshRateMs
  }

  /** The fields one interval keeps of each channel, in channel order. */
  function Project<T>(cs: seq<Channel>, f: Channel -> T): (r: seq<T>)
    ensures |r| == |cs|
    ensures forall i :: 0 <= i < |cs| ==> r[i] == f(cs[i])
  {
    seq(|cs|, i requires 0 <= i < |cs| => f(cs[i]))
  }

  lemma ProjectAppend<T>(cs: seq<Channel>, c: Channel, f: Channel -> T)
    ensures Project(cs + [c], f) == Project(cs, f) + [f(c)]
  {
  }

  /** One more channel joins exactly the group of its own rate, at its end. */
  lemma RateFilterAppend(cs: seq<Channel>, c: Channel, rate: nat)
    ensures RateFilter(cs + [c], rate) == RateFilter(cs, rate) + (if c.refreshRateMs == rate then [c] else [])
  {
    assert (cs + [c])[..|cs|] == cs;
  }

  lemma RatesAppend(cs: seq<Channel>, c: Channel)
    ensures Rates(cs + [c]) == Rates(cs) + {c.refreshRateMs}
  {
    assert forall x :: x in cs + [c] <==> x in cs || x == c;
  }

  /** Strictly increasing positions of `cs` whose channel has rate `rate`. */
  function RateIndices(cs: seq<Channel>, rate: nat): (ix: seq<nat>)
    ensures forall k :: 0 <= k < |ix| ==> ix[k] < |cs| && cs[ix[k]].refreshRateMs == rate
    ensures forall k, l :: 0 <= k < l < |ix| ==> ix[k] < ix[l]
    ensures forall i :: 0 <= i < |cs| && cs[i].refreshRateMs == rate ==> i in ix
  {
    if cs == [] then []
    else
      var n := |cs| - 1;
      var prefix := RateIndices(cs[..n], rate);
      prefix + (if cs[n].refreshRateMs == rate then [n] else [])
  }

  /** A group is the channels of its rate picked from the input in
      increasing position: input order is kept and none is skipped. */
  lemma {:induction false} RateFilterPicks(cs: seq<Channel>, rate: nat)
    ensures |RateFilter(cs, rate)| == |RateIndices(cs, rate)|
    ensures forall k :: 0 <= k < |RateIndices(cs, rate)| ==> RateFilter(cs, rate)[k] == cs[RateIndices(cs, rate)[k]]
  {
    if cs != [] {
      var n := |cs| - 1;
      RateFilterPicks(cs[..n], rate);
      var ix0 := RateIndices(cs[..n], rate);
      var g0 := RateFilter(cs[..n], rate);
      var tail := if cs[n].refreshRateMs == rate then [cs[n]] else [];
      var itail := if cs[n].refreshRateMs == rate then [n] else [];
      assert RateFilter(cs, rate) == g0 + tail;
      assert RateIndices(cs, rate) == ix0 + itail;
      forall k | 0 <= k < |ix0| ensures (g0 + tail)[k] == cs[(ix0 + itail)[k]] {
        assert g0[k] == cs[..n][ix0[k]];
      }
    }
  }

  /** The groups of the rates `rates`, one after the other. */
  function Flatten(cs: seq<Channel>, rates: seq<nat>): seq<Channel> {
    if rates == [] then [] else RateFilter(cs, rates[0]) + Flatten(cs, rates[1..])
  }

  ghost predicate Distinct(rates: seq<nat>) {
    forall i, j :: 0 <= i < j < |rates| ==> rates[i] != rates[j]
  }

  lemma {:induction false} FlattenAppend(cs: seq<Channel>, c: Channel, rates: seq<nat>)
    requires Distinct(rates)
    ensures multiset(Flatten(cs + [c], rates))
            == multiset(Flatten(cs, rates)) + (if c.refreshRateMs in rates then multiset{c} else multiset{})
  {
    if rates != [] {
      var r0, tail := rates[0], rates[1..];
      assert rates == [r0] + tail;
      assert Distinct(tail) by {
        forall i, j | 0 <= i < j < |tail| ensures tail[i] != tail[j] {
          assert tail[i] == rates[i + 1] && tail[j] == rates[j + 1];
        }
      }
      assert r0 !in tail by {
        forall i | 0 <= i < |tail| ensures tail[i] != r0 {
          assert tail[i] == rates[i + 1];
        }
      }
      RateFilterAppend(cs, c, r0);
      FlattenAppend(cs, c, tail);
      assert Flatten(cs + [c], rates) == RateFilter(cs + [c], r0) + Flatten(cs + [c], tail);
      assert Flatten(cs, rates) == RateFilter(cs, r0) + Flatten(cs, tail);
    }
  }

  /** The groups partition the channels: taken over every rate once, they
      hold each channel exactly as often as the input does. */
  lemma {:induction false} GroupsPartition(cs: seq<Channel>, rates: seq<nat>)
    requires Distinct(rates)
    requires forall c :: c in cs ==> c.refreshRateMs in rates
    ensures multiset(Flatten(cs, rates)) == multiset(cs)
  {
    if cs == [] {
      FlattenEmpty(rates);
    } else {
      var n := |cs| - 1;
      assert cs == cs[..n] + [cs[n]];
      GroupsPartition(cs[..n], rates);
      FlattenAppend(cs[..n], cs[n], rates);
    }
  }

  lemma {:induction false} FlattenEmpty(rates: seq<nat>)
    ensures Flatten([], rates) == []
  {
    if rates != [] {
      FlattenEmpty(rates[1..]);
    }
  }

  /** A rate no channel has gets an empty group. */
  lemma {:induction false} RateFilterNone(cs: seq<Channel>, rate: nat)
    requires rate !in Rates(cs)
    ensures RateFilter(cs, rate) == []
  {
    if cs != [] {
      var n := |cs| - 1;
      assert cs[n] in cs;
      assert forall c :: c in cs[..n] ==> c in cs;
      RateFilterNone(cs[..n], rate);
    }
  }

  /** Every channel lands in the group of its own rate and in no other. */
  lemma ExactlyOneGroup(cs: seq<Channel>, i: nat, rate: nat)
    requires i < |cs|
    ensures cs[i] in RateFilter(cs, rate) <==> rate == cs[i].refreshRateMs
  {
  }
}
