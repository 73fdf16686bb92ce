/** The segment list side of the transform: dropping segments with an undefined field,
    summing the durations of labelled segments, and reversing the order. */
module Segments {
  import opened Types

  /** A segment survives the filter when both its label and its duration are defined. */
  predicate Defined(v: Video) {
    v.text.Some? && v.time.Some?
  }

  /** A segment counts towards the total time when its label is truthy, i.e. defined and
      non-empty. */
  predicate Labelled(v: Video) {
    v.text.Some? && v.text.value != ""
  }

  /** What one segment adds to the total time. */
  function Contribution(v: Video): real {
    if Labelled(v) && v.time.Some? then v.time.value else 0.0
  }

  /** The segments whose label and duration are both defined, in their original order. */
  function Retained(videos: seq<Video>): (r: seq<Video>)
    ensures |r| <= |videos|
    ensures forall i :: 0 <= i < |r| ==> Defined(r[i])
  {
    if videos == [] then []
    else (if Defined(videos[0]) then [videos[0]] else []) + Retained(videos[1..])
  }

  /** The filter keeps every defined segment as many times as the input holds it, and
      nothing else. */
  lemma {:induction false} RetainedCounts(videos: seq<Video>, v: Video)
    ensures multiset(Retained(videos))[v] == if Defined(v) then multiset(videos)[v] else 0
    ensures v in Retained(videos) <==> v in videos && Defined(v)
  {
    if videos != [] {
      RetainedCounts(videos[1..], v);
      assert videos == [videos[0]] + videos[1..];
    }
  }

  /** Sum of the durations of the labelled segments, accumulated front to back. */
  function LabelledTime(videos: seq<Video>): real {
    if videos == [] then 0.0
    else LabelledTime(videos[..|videos| - 1]) + Contribution(videos[|videos| - 1])
  }

  /** No negative durations, no negative total. */
  lemma {:induction false} LabelledTimeNonNegative(videos: seq<Video>)
    requires forall i :: 0 <= i < |videos| ==> videos[i].time.Some? ==> videos[i].time.value >= 0.0
    ensures LabelledTime(videos) >= 0.0
  {
    if videos != [] {
      LabelledTimeNonNegative(videos[..|videos| - 1]);
    }
  }

  /** Without a non-empty label the total is zero, whatever the durations. */
  lemma {:induction false} LabelledTimeUnlabelled(videos: seq<Video>)
    requires forall i :: 0 <= i < |videos| ==> !Labelled(videos[i])
    ensures LabelledTime(videos) == 0.0
  {
    if videos != [] {
      LabelledTimeUnlabelled(videos[..|videos| - 1]);
    }
  }

  /** The sequence in the opposite order. */
  function Reversed<T>(s: seq<T>): (r: seq<T>)
    ensures |r| == |s|
    ensures forall i :: 0 <= i < |s| ==> r[i] == s[|s| - 1 - i]
  {
    if s == [] then [] else Reversed(s[1..]) + [s[0]]
  }

  /** The `totalTime` loop: labelled segments add their duration, the others are skipped
      with `continue`. Every segment it sees has already passed the filter. */
  method TotalTime(videos: seq<Video>) returns (totalTime: real)
    requires forall i :: 0 <= i < |videos| ==> Defined(videos[i])
    ensures totalTime == LabelledTime(videos)
  {
    totalTime := 0.0;
    for i := 0 to |videos|
      invariant totalTime == LabelledTime(videos[..i])
    {
      assert videos[..i + 1][..i] == videos[..i];
      if videos[i].text.value == "" {
        continue;
      }
      totalTime := totalTime + videos[i].time.value;
    }
    assert videos[..|videos|] == videos;
  }

  /** Filtering distributes over concatenation: the filter keeps relative order. */
  lemma {:induction false} RetainedAppend(a: seq<Video>, b: seq<Video>)
    ensures Retained(a + b) == Retained(a) + Retained(b)
  {
    if a == [] {
      assert a + b == b;
    } else {
      assert (a + b)[1..] == a[1..] + b;
      RetainedAppend(a[1..], b);
    }
  }

  /** A list that has already been filtered is left as it is. */
  lemma {:induction false} RetainedOfDefined(videos: seq<Video>)
    requires forall i :: 0 <= i < |videos| ==> Defined(videos[i])
    ensures Retained(videos) == videos
  {
    if videos != [] {
      RetainedOfDefined(videos[1..]);
      assert videos == [videos[0]] + videos[1..];
    }
  }

  /** Filtering twice is filtering once, so re-running the transform on a configuration
      it has already filtered drops nothing more. */
  lemma RetainedIdempotent(videos: seq<Video>)
    ensures Retained(Retained(videos)) == Retained(videos)
  {
    RetainedOfDefined(Retained(videos));
  }

  /** Filtering and reversing commute. */
  lemma {:induction false} RetainedReversed(videos: seq<Video>)
    ensures Retained(Reversed(videos)) == Reversed(Retained(videos))
  {
    if videos != [] {
      RetainedReversed(videos[1..]);
      RetainedAppend(Reversed(videos[1..]), [videos[0]]);
      assert videos == [videos[0]] + videos[1..];
      RetainedAppend([videos[0]], videos[1..]);
      ReversedAppend([videos[0]], videos[1..]);
      assert Retained([videos[0]]) == if Defined(videos[0]) then [videos[0]] else [];
    }
  }

  /** Reversing a concatenation reverses the order of the parts. */
  lemma ReversedAppend<T>(a: seq<T>, b: seq<T>)
    ensures Reversed(a + b) == Reversed(b) + Reversed(a)
  {
  }

  /** Reversing twice restores the original order. */
  lemma ReversedInvolutive<T>(s: seq<T>)
    ensures Reversed(Reversed(s)) == s
  {
  }

  /** Reversal adds, drops and duplicates nothing. */
  lemma {:induction false} ReversedPermutes<T>(s: seq<T>)
    ensures multiset(Reversed(s)) == multiset(s)
  {
    if s != [] {
      ReversedPermutes(s[1..]);
      assert s == [s[0]] + s[1..];
    }
  }

  /** The total of a concatenation is the sum of the totals. */
  lemma {:induction false} LabelledTimeAppend(a: seq<Video>, b: seq<Video>)
    ensures LabelledTime(a + b) == LabelledTime(a) + LabelledTime(b)
  {
    if b == [] {
      assert a + b == a;
    } else {
      var b' := b[..|b| - 1];
      assert (a + b)[..|a + b| - 1] == a + b';
      assert (a + b)[|a + b| - 1] == b[|b| - 1];
      LabelledTimeAppend(a, b');
    }
  }

  /** The total does not depend on the order, so it is the same for the reversed list. */
  lemma {:induction false} LabelledTimeReversed(videos: seq<Video>)
    ensures LabelledTime(Reversed(videos)) == LabelledTime(videos)
  {
    if videos != [] {
      var rest := Reversed(videos[1..]);
      assert (rest + [videos[0]])[..|rest|] == rest;
      LabelledTimeReversed(videos[1..]);
      assert videos == [videos[0]] + videos[1..];
      LabelledTimeAppend([videos[0]], videos[1..]);
      assert [videos[0]][..0] == [];
    }
  }

  /** A segment with an empty label, wherever it stands, contributes nothing. */
  lemma EmptyLabelAddsNothing(a: seq<Video>, t: real, b: seq<Video>)
    ensures LabelledTime(a + [Video(Some(""), Some(t))] + b) == LabelledTime(a + b)
  {
    var v := Video(Some(""), Some(t));
    LabelledTimeAppend(a + [v], b);
    LabelledTimeAppend(a, b);
    assert (a + [v])[..|a|] == a;
  }
}
