/**
 * `searchForRearCamera`: where the platform can enumerate media sources,
 * keep the video sources facing the environment, map them to their ids and
 * resolve with the first id; otherwise, or when there is none, resolve with
 * null (None).
 */
module RearCamera {
  import opened Options

  /** One entry of the list `MediaStreamTrack.getSources` hands to its callback. */
  datatype SourceInfo = SourceInfo(kind: string, facing: string, id: string)

  predicate IsRearCamera(s: SourceInfo) {
    s.kind == "video" && s.facing == "environment"
  }

  /** The `filter` step: every rear camera and nothing else, in source order (see RearSourcesConcat). */
  function RearSources(sources: seq<SourceInfo>): (r: seq<SourceInfo>)
    ensures |r| <= |sources|
    ensures forall s :: s in r <==> s in sources && IsRearCamera(s)
  {
    if sources == [] then []
    else if IsRearCamera(sources[0]) then [sources[0]] + RearSources(sources[1..])
    else RearSources(sources[1..])
  }

  /** The `map` step: each source's id, in order. */
  function Ids(sources: seq<SourceInfo>): (r: seq<string>)
    ensures |r| == |sources|
    ensures forall i :: 0 <= i < |r| ==> r[i] == sources[i].id
  {
    if sources == [] then [] else [sources[0].id] + Ids(sources[1..])
  }

  /** The filter keeps source order: filtering a concatenation concatenates the filtered parts. */
  lemma {:induction false} RearSourcesConcat(a: seq<SourceInfo>, b: seq<SourceInfo>)
    ensures RearSources(a + b) == RearSources(a) + RearSources(b)
    decreases |a|
  {
    if a == [] {
      assert a + b == b;
    } else {
      assert (a + b)[0] == a[0] && (a + b)[1..] == a[1..] + b;
      RearSourcesConcat(a[1..], b);
    }
  }

  /** `sources[i]` is a rear camera and no earlier source is. */
  predicate IsFirstRear(sources: seq<SourceInfo>, i: int) {
    0 <= i < |sources| && IsRearCamera(sources[i]) &&
    forall j :: 0 <= j < i ==> !IsRearCamera(sources[j])
  }

  /** The filter is empty exactly when no source is a rear camera, and otherwise begins with the first one. */
  lemma {:induction false} RearSourcesHead(sources: seq<SourceInfo>)
    ensures RearSources(sources) == [] <==> forall j :: 0 <= j < |sources| ==> !IsRearCamera(sources[j])
    ensures RearSources(sources) != [] ==>
              exists i :: IsFirstRear(sources, i) && RearSources(sources)[0] == sources[i]
  {
    if sources != [] {
      RearSourcesHead(sources[1..]);
      if !IsRearCamera(sources[0]) && RearSources(sources[1..]) != [] {
        var i :| IsFirstRear(sources[1..], i) && RearSources(sources[1..])[0] == sources[1..][i];
        assert IsFirstRear(sources, i + 1);
      }
      if IsRearCamera(sources[0]) {
        assert IsFirstRear(sources, 0);
      }
      if RearSources(sources) == [] {
        forall j | 0 <= j < |sources|
          ensures !IsRearCamera(sources[j])
        {
          if j > 0 {
            assert sources[j] == sources[1..][j - 1];
          }
        }
      }
    }
  }

  /**
   * The resolved value. `enumerated` is None when `MediaStreamTrack` is
   * falsy or has no `getSources`, and otherwise the list the callback
   * receives.
   * Without the enumeration API the result is null. With it, the result is
   * the id of the first source, in source order, whose kind is "video" and
   * which faces the environment, and null exactly when no source is such.
   */
  function SearchForRearCamera(enumerated: Option<seq<SourceInfo>>): (r: Option<string>)
    ensures enumerated.None? ==> r == None
    ensures enumerated.Some? ==>
              (r == None <==> forall j :: 0 <= j < |enumerated.value| ==> !IsRearCamera(enumerated.value[j]))
    ensures r.Some? ==> exists i :: IsFirstRear(enumerated.value, i) && r.value == enumerated.value[i].id
  {
    match enumerated
    case None => None
    case Some(sources) =>
      RearSourcesHead(sources);
      var rearCameraIds := Ids(RearSources(sources));
      if |rearCameraIds| > 0 then Some(rearCameraIds[0]) else None
  }
}
