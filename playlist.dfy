/** The playlist navigator: the search filter over the track list and the
    rules that pick the previous, next and auto-advanced track from the
    filtered order or the shuffle order. Track indices are positions in the
    full track list. */
module Playlist {
  import opened Common
  import Timeline

  datatype Song = Song(title: string, path: Timeline.Path)

  // ---- Search filter ----

  /** Lower-cases one character (ASCII letters only). */
  function LowerChar(c: char): char {
    if 'A' <= c <= 'Z' then (c as int + 32) as char else c
  }

  function Lower(s: string): (r: string)
    ensures |r| == |s|
  {
    seq(|s|, i requires 0 <= i < |s| => LowerChar(s[i]))
  }

  /** `q` occurs in `s` as a contiguous substring: it is a prefix of `s` or
      occurs in `s` without its first character. */
  predicate Contains(s: string, q: string)
    ensures Contains(s, q) ==> |q| <= |s|
    ensures q <= s ==> Contains(s, q)
    decreases |s|
  {
    q <= s || (s != [] && Contains(s[1..], q))
  }

  /** Whether a song passes the (already lower-cased) query: the empty
      query passes every song, and no query longer than the title passes. */
  predicate Matches(song: Song, q: string)
    ensures q == [] ==> Matches(song, q)
    ensures Matches(song, q) ==> |q| <= |song.title|
  {
    q == [] || Contains(Lower(song.title), q)
  }

  /** `Contains` is substring search: `q` occurs in `s` exactly when it is a
      prefix of some suffix of `s`. */
  lemma {:induction false} ContainsIsSubstring(s: string, q: string)
    ensures Contains(s, q) <==> exists i :: 0 <= i <= |s| && q <= s[i..]
    decreases |s|
  {
    if q <= s {
      assert s[0..] == s;
    }
    if s != [] {
      ContainsIsSubstring(s[1..], q);
      if Contains(s[1..], q) {
        var i :| 0 <= i <= |s[1..]| && q <= s[1..][i..];
        assert s[1..][i..] == s[i + 1..];
      }
      if i :| 0 <= i <= |s| && q <= s[i..] {
        if i > 0 {
          assert s[1..][i - 1..] == s[i..];
        }
      }
    } else {
      if i :| 0 <= i <= |s| && q <= s[i..] {
        assert s[i..] == s;
      }
    }
  }

  /** The indices of the songs that pass the query, in track-list order. */
  function Filtered(songs: seq<Song>, q: string): (fi: seq<nat>)
    ensures |fi| <= |songs|
    ensures forall k :: 0 <= k < |fi| ==> fi[k] < |songs|
    ensures Distinct(fi)
    decreases |songs|
  {
    if songs == [] then []
    else
      var n := |songs| - 1;
      Filtered(songs[..n], q) + (if Matches(songs[n], q) then [n] else [])
  }

  predicate StrictlyIncreasing(s: seq<nat>) {
    forall i, j :: 0 <= i < j < |s| ==> s[i] < s[j]
  }

  predicate Distinct(s: seq<nat>) {
    forall i, j :: 0 <= i < j < |s| ==> s[i] != s[j]
  }

  /** `0, 1, ..., n-1`: the list before any search. */
  function Range(n: nat): (r: seq<nat>)
    ensures |r| == n && forall i :: 0 <= i < n ==> r[i] == i
  {
    seq(n, i => i)
  }

  /** The search handler's loop: clears the list and pushes every index
      whose lower-cased title contains the lower-cased query. */
  method FilterIndices(songs: seq<Song>, query: string) returns (fi: seq<nat>)
    ensures fi == Filtered(songs, Lower(query))
  {
    var q := Lower(query);
    fi := [];
    for i := 0 to |songs|
      invariant fi == Filtered(songs[..i], q)
    {
      assert songs[..i + 1][..i] == songs[..i];
      if q == [] || Contains(Lower(songs[i].title), q) {
        fi := fi + [i];
      }
    }
    assert songs[..|songs|] == songs;
  }

  /** An index is listed exactly when it is a valid track whose title
      matches. */
  lemma {:induction false} FilteredMembership(songs: seq<Song>, q: string, i: nat)
    ensures i in Filtered(songs, q) <==> i < |songs| && Matches(songs[i], q)
    decreases |songs|
  {
    if songs != [] {
      var n := |songs| - 1;
      FilteredMembership(songs[..n], q, i);
      if i < n {
        assert songs[..n][i] == songs[i];
      }
    }
  }

  /** The filtered list is strictly increasing, hence free of repeats. */
  lemma {:induction false} FilteredIncreasing(songs: seq<Song>, q: string)
    ensures StrictlyIncreasing(Filtered(songs, q)) && Distinct(Filtered(songs, q))
    decreases |songs|
  {
    if songs != [] {
      var n := |songs| - 1;
      FilteredIncreasing(songs[..n], q);
      var prefix := Filtered(songs[..n], q);
      assert forall k :: 0 <= k < |prefix| ==> prefix[k] < n;
    }
  }

  /** The empty query keeps every track, in order. */
  lemma {:induction false} FilteredEmptyQuery(songs: seq<Song>)
    ensures Filtered(songs, []) == Range(|songs|)
    decreases |songs|
  {
    if songs != [] {
      var n := |songs| - 1;
      FilteredEmptyQuery(songs[..n]);
      assert Range(n) + [n] == Range(|songs|);
    }
  }

  // ---- Navigation ----

  /** The first position of `x` in `s`. */
  function IndexOf(s: seq<nat>, x: nat): (r: Option<nat>)
    ensures r.Some? ==> r.value < |s| && s[r.value] == x &&
                        forall j :: 0 <= j < r.value ==> s[j] != x
    ensures r.None? <==> x !in s
    decreases |s|
  {
    if s == [] then None
    else if s[0] == x then Some(0)
    else
      match IndexOf(s[1..], x)
      case None => None
      case Some(p) => Some(p + 1)
  }

  function First(s: seq<nat>): Option<nat> {
    if s == [] then None else Some(s[0])
  }

  function Last(s: seq<nat>): Option<nat> {
    if s == [] then None else Some(s[|s| - 1])
  }

  /** The track the navigation handlers start from: the selected one, or
      else the first of the filtered list. */
  function Current(selected: Option<nat>, fi: seq<nat>): (r: Option<nat>)
    ensures selected.Some? ==> r == selected
    ensures selected.None? ==> (r.Some? <==> fi != []) && (r.Some? ==> r.value == fi[0])
  {
    selected.OrElse(First(fi))
  }

  /** The element after the first occurrence of `x`; none at the end or when
      `x` is absent. */
  function Successor(s: seq<nat>, x: nat): (r: Option<nat>)
    ensures r.Some? <==> x in s && IndexOf(s, x).value + 1 < |s|
    ensures r.Some? ==> r.value == s[IndexOf(s, x).value + 1] && r.value in s
  {
    match IndexOf(s, x)
    case None => None
    case Some(p) => if p + 1 < |s| then Some(s[p + 1]) else None
  }

  /** The element before the first occurrence of `x`; none at the start or
      when `x` is absent. */
  function Predecessor(s: seq<nat>, x: nat): (r: Option<nat>)
    ensures r.Some? <==> x in s && IndexOf(s, x).value >= 1
    ensures r.Some? ==> r.value == s[IndexOf(s, x).value - 1] && r.value in s
  {
    match IndexOf(s, x)
    case None => None
    case Some(p) => if p >= 1 then Some(s[p - 1]) else None
  }

  /** Next in shuffle mode: the successor in the shuffle order, or else
      (at the end, or when `x` is not in the order) its first element. */
  function ShuffleNext(so: seq<nat>, x: nat): (r: Option<nat>)
    ensures r.Some? <==> so != []
    ensures r.Some? ==> r.value in so
    ensures x !in so ==> r == First(so)
  {
    Successor(so, x).OrElse(First(so))
  }

  /** Previous in shuffle mode: the predecessor in the shuffle order, or
      else (at the start, or when absent) its last element. */
  function ShufflePrev(so: seq<nat>, x: nat): (r: Option<nat>)
    ensures r.Some? <==> so != []
    ensures r.Some? ==> r.value in so
    ensures x !in so ==> r == Last(so)
  {
    Predecessor(so, x).OrElse(Last(so))
  }

  /** The track the "next" button goes to: always a track of the active
      order (the shuffle order in shuffle mode, else the filtered list); in
      shuffle mode one is found whenever the order is non-empty. */
  function NextTrack(shuffle: bool, so: seq<nat>, fi: seq<nat>, cur: nat): (r: Option<nat>)
    ensures r.Some? ==> r.value in (if shuffle then so else fi)
    ensures shuffle ==> (r.Some? <==> so != [])
    ensures !shuffle ==> (r.Some? <==> cur in fi && IndexOf(fi, cur).value + 1 < |fi|)
  {
    if shuffle then ShuffleNext(so, cur) else Successor(fi, cur)
  }

  /** The track the "previous" button goes to when it changes track: always
      a track of the active order. */
  function PrevTrack(shuffle: bool, so: seq<nat>, fi: seq<nat>, cur: nat): (r: Option<nat>)
    ensures r.Some? ==> r.value in (if shuffle then so else fi)
    ensures shuffle ==> (r.Some? <==> so != [])
    ensures !shuffle ==> (r.Some? <==> cur in fi && IndexOf(fi, cur).value >= 1)
  {
    if shuffle then ShufflePrev(so, cur) else Predecessor(fi, cur)
  }

  /** The track the timer starts when the current one has run out: with
      repeat-one the current track whatever the shuffle state, otherwise
      what the "next" button would pick (which never looks at repeat-one). */
  function AutoNext(repeatOne: bool, shuffle: bool, so: seq<nat>, fi: seq<nat>, cur: nat): (r: Option<nat>)
    ensures repeatOne ==> r == Some(cur)
    ensures !repeatOne ==> r == NextTrack(shuffle, so, fi, cur)
    ensures r.Some? ==> r.value == cur || r.value in (if shuffle then so else fi)
  {
    if repeatOne then Some(cur) else NextTrack(shuffle, so, fi, cur)
  }

  /** Past this position "previous" restarts the current track. */
  const RestartThreshold: Timeline.Millis := 3000

  datatype PrevAction = RestartTrack | ChangeTrack(target: Option<nat>)

  /** What the "previous" button does at playback position `position`. */
  function PrevDecision(position: Timeline.Millis, shuffle: bool, so: seq<nat>, fi: seq<nat>, cur: nat)
    : (r: PrevAction)
    ensures r == RestartTrack <==> position > 3000
    ensures r.ChangeTrack? ==> r.target == PrevTrack(shuffle, so, fi, cur)
  {
    if position > RestartThreshold then RestartTrack
    else ChangeTrack(PrevTrack(shuffle, so, fi, cur))
  }

  // ---- Properties of navigation ----

  /** In a list without repeats the element at position k is found at k. */
  lemma IndexOfDistinct(s: seq<nat>, k: nat)
    requires Distinct(s) && k < |s|
    ensures IndexOf(s, s[k]) == Some(k)
  {
  }

  /** Next then previous recovers the track, and previous then next too, on
      any list without repeats (the filtered list is one). */
  lemma NextPrevRoundTrip(s: seq<nat>, x: nat, y: nat)
    requires Distinct(s)
    ensures Successor(s, x) == Some(y) <==> x in s && Predecessor(s, y) == Some(x)
  {
    if Successor(s, x) == Some(y) {
      var p := IndexOf(s, x).value;
      IndexOfDistinct(s, p + 1);
    }
    if x in s && Predecessor(s, y) == Some(x) {
      var q := IndexOf(s, y).value;
      IndexOfDistinct(s, q - 1);
    }
  }

  /** The last element has no successor and the first no predecessor: plain
      navigation never wraps. */
  lemma PlainNoWrap(s: seq<nat>)
    requires Distinct(s) && s != []
    ensures Successor(s, s[|s| - 1]) == None && Predecessor(s, s[0]) == None
  {
    IndexOfDistinct(s, |s| - 1);
    IndexOfDistinct(s, 0);
  }

  /** Shuffle navigation always finds a track in a non-empty order, the track
      is taken from the order, and it wraps around at both ends. */
  lemma ShuffleWraps(so: seq<nat>, x: nat)
    requires Distinct(so) && so != []
    ensures ShuffleNext(so, x).Some? && ShuffleNext(so, x).value in so
    ensures ShufflePrev(so, x).Some? && ShufflePrev(so, x).value in so
    ensures ShuffleNext(so, so[|so| - 1]) == Some(so[0])
    ensures ShufflePrev(so, so[0]) == Some(so[|so| - 1])
    ensures x !in so ==> ShuffleNext(so, x) == Some(so[0]) && ShufflePrev(so, x) == Some(so[|so| - 1])
  {
    PlainNoWrap(so);
  }

  /** With an empty shuffle order shuffle navigation finds nothing. */
  lemma ShuffleEmpty(x: nat)
    ensures ShuffleNext([], x) == None && ShufflePrev([], x) == None
  {
  }

  /** Filtered list [0, 2, 5], shuffle and repeat off: next of 2 is 5 and
      next of 5 is nothing; previous at 5 s restarts, at 1 s moves from 2
      to 0. */
  lemma ScenarioFilteredNavigation()
    ensures AutoNext(false, false, [], [0, 2, 5], 2) == Some(5)
    ensures AutoNext(false, false, [], [0, 2, 5], 5) == None
    ensures PrevDecision(5000, false, [], [0, 2, 5], 2) == RestartTrack
    ensures PrevDecision(1000, false, [], [0, 2, 5], 2) == ChangeTrack(Some(0))
  {
    assert IndexOf([0, 2, 5], 2) == Some(1) by {
      assert IndexOf([2, 5], 2) == Some(0);
    }
    assert IndexOf([0, 2, 5], 5) == Some(2) by {
      assert [0, 2, 5][1..] == [2, 5] && [2, 5][1..] == [5];
      assert IndexOf([5], 5) == Some(0);
    }
  }

  /** A shuffle order taken under an earlier query only leads to tracks
      that matched that query; under the current query such a track is
      listed exactly when it also matches the current one. */
  lemma StaleShuffleTarget(songs: seq<Song>, q1: string, q2: string, so: seq<nat>, x: nat)
    requires multiset(so) == multiset(Filtered(songs, q1))
    requires ShuffleNext(so, x).Some?
    ensures var y := ShuffleNext(so, x).value;
            y < |songs| && Matches(songs[y], q1) &&
            (y in Filtered(songs, q2) <==> Matches(songs[y], q2))
  {
    var y := ShuffleNext(so, x).value;
    assert y in multiset(Filtered(songs, q1));
    FilteredMembership(songs, q1, y);
    FilteredMembership(songs, q2, y);
  }

  /** Two tracks "a" and "b"; shuffle is switched on with the empty query,
      then the search narrows to "a". The shuffle order still leads from
      track 0 to track 1, which the filtered list no longer holds. */
  lemma StaleShuffleOrder(pa: Timeline.Path, pb: Timeline.Path)
    ensures var songs := [Song("a", pa), Song("b", pb)];
            var so := [0, 1];
            var fi := Filtered(songs, "a");
            multiset(so) == multiset(Filtered(songs, "")) &&
            fi == [0] && ShuffleNext(so, 0) == Some(1) && 1 !in fi
  {
    var songs := [Song("a", pa), Song("b", pb)];
    FilteredEmptyQuery(songs);
    assert Range(2) == [0, 1];
    assert Lower("a") == "a" && Lower("b") == "b";
    assert Matches(songs[0], "a");
    assert !Contains("b", "a") by {
      assert "b"[1..] == [];
      assert !Contains([], "a");
      assert !("a" <= "b") by {
        assert "a"[0] != "b"[0];
      }
    }
    assert songs[..1] == [Song("a", pa)] && songs[..1][..0] == [];
    assert IndexOf([0, 1], 0) == Some(0);
  }

  // ---- Shuffle ----

  /** Shuffles `xs` by a Fisher-Yates pass driven by `draw`: position i is
      exchanged with position `draw(i) % (i + 1)`. Every choice function
      gives a permutation. */
  method ShuffleWith(xs: seq<nat>, draw: nat -> nat) returns (ys: seq<nat>)
    ensures |ys| == |xs| && multiset(ys) == multiset(xs)
    ensures Distinct(xs) ==> Distinct(ys)
  {
    ys := xs;
    var i := |ys|;
    while i > 1
      invariant 0 <= i <= |ys| && |ys| == |xs|
      invariant multiset(ys) == multiset(xs)
      invariant Distinct(xs) ==> Distinct(ys)
    {
      i := i - 1;
      var j := draw(i) % (i + 1);
      if Distinct(ys) {
        SwapDistinct(ys, i, j);
      }
      ys := ys[i := ys[j]][j := ys[i]];
    }
  }

  /** Exchanging two elements of a list without repeats leaves it without
      repeats. */
  lemma SwapDistinct(s: seq<nat>, i: nat, j: nat)
    requires Distinct(s) && i < |s| && j < |s|
    ensures Distinct(s[i := s[j]][j := s[i]])
  {
    var t := s[i := s[j]][j := s[i]];
    forall p, q | 0 <= p < q < |t|
      ensures t[p] != t[q]
    {
      var p' := if p == i then j else if p == j then i else p;
      var q' := if q == i then j else if q == j then i else q;
      assert t[p] == s[p'] && t[q] == s[q'] && p' != q';
    }
  }
}
