/** Tracks of vehicles in a video and how they are counted when they pass a line. */
module VehicleCounting {

  datatype Box = Box(left: int, top: int, right: int, bottom: int)
  datatype Point = Point(x: int, y: int)
  datatype Line = Line(p0: Point, p1: Point)
  datatype Detection = Detection(className: string, score: real, box: Box)

  /** `start` and `last` are numbers of frames; boxes and scores grow side by side. */
  datatype Track = Track(id: nat, className: string, active: bool, counted: bool, start: nat, last: nat,
                         boxes: seq<Box>, scores: seq<real>, roi: nat)

  type Counts = seq<map<string, nat>>

  /** For every track ever counted: for which line and class. */
  type Tally = map<nat, (nat, string)>

  const MIN_BOXES: nat := 6

  // ---- Passing a line -------------------------------------------------------------------------------

  /** From the centre of a box to both ends of the line, added up; coordinates are halved downwards. */
  function Toward(line: Line, b: Box): Point {
    var x, y := (b.left + b.right) / 2, (b.top + b.bottom) / 2;
    Point(line.p0.x - x + (line.p1.x - x), line.p0.y - y + (line.p1.y - y))
  }

  predicate SameSide(line: Line, a: Box, b: Box) {
    Toward(line, a).x * Toward(line, a).y * Toward(line, b).x * Toward(line, b).y > 0
  }

  /** At least six boxes, and the first three and the last three, paired from the outside in, are
    * not on the same side in the sense of `SameSide`: that compares the quadrants of two sums, not
    * the sides of the line. */
  predicate Passing(boxes: seq<Box>, line: Line) {
    |boxes| >= MIN_BOXES && forall i :: 0 <= i < 3 ==> !SameSide(line, boxes[i], boxes[|boxes| - 1 - i])
  }

  method IsPassingLine(boxes: seq<Box>, line: Line) returns (passing: bool)
    ensures passing <==> Passing(boxes, line)
  {
    if |boxes| < MIN_BOXES {
      return false;
    }
    var vs: seq<Point> := [];
    for k := 0 to |boxes|
      invariant |vs| == k && forall l :: 0 <= l < k ==> vs[l] == Toward(line, boxes[l])
    {
      vs := vs + [Toward(line, boxes[k])];
    }
    for i := 0 to 3
      invariant forall l :: 0 <= l < i ==> !SameSide(line, boxes[l], boxes[|boxes| - 1 - l])
    {
      var v1, v2 := vs[i], vs[|vs| - 1 - i];
      if v1.x * v1.y * v2.x * v2.y > 0 {
        assert SameSide(line, boxes[i], boxes[|boxes| - 1 - i]);
        return false;
      }
    }
    passing := true;
  }

  // ---- Lists of tracks ---------------------------------------------------------------------------------

  predicate DistinctIds(ts: seq<Track>) {
    forall i, j :: 0 <= i < j < |ts| ==> ts[i].id != ts[j].id
  }

  /** A track as it is kept: as many scores as boxes, at least one, for a known region and class. */
  predicate TrackOk(t: Track, rois: nat, classes: set<string>) {
    |t.boxes| == |t.scores| > 0 && t.roi < rois && t.className in classes
  }

  /** Tracks with distinct used ids, marked as counted exactly if they are in the tally. */
  predicate TracksOk(ts: seq<Track>, rois: nat, classes: set<string>, used: nat, tally: Tally) {
    && DistinctIds(ts)
    && forall i :: 0 <= i < |ts| ==>
         && TrackOk(ts[i], rois, classes)
         && 0 < ts[i].id <= used
         && (ts[i].counted <==> ts[i].id in tally)
  }

  function Active(): Track -> bool {
    (t: Track) => t.active
  }

  function StillInside(outside: (Box, nat) -> bool): Track -> bool {
    (t: Track) => |t.boxes| > 0 && !outside(t.boxes[|t.boxes| - 1], t.roi)
  }

  function SeenSince(now: int, limit: int): Track -> bool {
    (t: Track) => now - t.last <= limit
  }

  function NotAmong(ids: set<nat>): Track -> bool {
    (t: Track) => t.id !in ids
  }

  /** The tracks that are kept, in order. */
  function Keep(ts: seq<Track>, keep: Track -> bool): seq<Track> {
    if ts == [] then []
    else
      var rest, t := Keep(ts[..|ts| - 1], keep), ts[|ts| - 1];
      if keep(t) then rest + [t] else rest
  }

  lemma {:induction false} KeepExact(ts: seq<Track>, keep: Track -> bool)
    ensures forall t :: t in Keep(ts, keep) <==> t in ts && keep(t)
  {
    if ts != [] {
      assert ts == ts[..|ts| - 1] + [ts[|ts| - 1]];
      KeepExact(ts[..|ts| - 1], keep);
    }
  }

  lemma {:induction false} KeepInOrder(a: seq<Track>, t: Track, b: seq<Track>, keep: Track -> bool)
    ensures Keep(a + [t] + b, keep) == Keep(a, keep) + (if keep(t) then [t] else []) + Keep(b, keep)
  {
    if b == [] {
      assert a + [t] + b == a + [t] && (a + [t])[..|a|] == a;
    } else {
      KeepInOrder(a, t, b[..|b| - 1], keep);
      assert (a + [t] + b)[..|a + [t] + b| - 1] == a + [t] + b[..|b| - 1];
    }
  }

  lemma {:induction false} KeepDistinct(ts: seq<Track>, keep: Track -> bool)
    requires DistinctIds(ts)
    ensures DistinctIds(Keep(ts, keep))
  {
    if ts != [] {
      var init, last := ts[..|ts| - 1], ts[|ts| - 1];
      KeepDistinct(init, keep);
      KeepExact(init, keep);
      var rest := Keep(init, keep);
      forall i | 0 <= i < |rest| ensures rest[i].id != last.id {
        assert rest[i] in init;
      }
    }
  }

  lemma KeepOk(ts: seq<Track>, keep: Track -> bool, rois: nat, classes: set<string>, used: nat, tally: Tally)
    requires TracksOk(ts, rois, classes, used, tally)
    ensures TracksOk(Keep(ts, keep), rois, classes, used, tally)
  {
    KeepExact(ts, keep);
    KeepDistinct(ts, keep);
    var r := Keep(ts, keep);
    forall i | 0 <= i < |r|
      ensures TrackOk(r[i], rois, classes) && 0 < r[i].id <= used && (r[i].counted <==> r[i].id in tally)
    {
      assert r[i] in ts;
    }
  }

  /** One track replaced by another with the same id. */
  lemma UpdatedOk(ts: seq<Track>, k: nat, t: Track, rois: nat, classes: set<string>, used: nat, tally: Tally)
    requires TracksOk(ts, rois, classes, used, tally) && k < |ts|
    requires TrackOk(t, rois, classes) && t.id == ts[k].id && t.counted == ts[k].counted
    ensures TracksOk(ts[k := t], rois, classes, used, tally)
  {
  }

  /** A track with the next id. */
  lemma AddedOk(ts: seq<Track>, t: Track, rois: nat, classes: set<string>, used: nat, tally: Tally)
    requires TracksOk(ts, rois, classes, used, tally)
    requires TrackOk(t, rois, classes) && t.id == used + 1 && !t.counted && t.id !in tally
    ensures TracksOk(ts + [t], rois, classes, used + 1, tally)
  {
  }

  // ---- The counts ----------------------------------------------------------------------------------------

  function CountedFor(tally: Tally, roi: nat, className: string): set<nat> {
    set id | id in tally && tally[id] == (roi, className)
  }

  /** The counters say how many tracks were ever counted for each line and class. */
  ghost predicate Exact(counts: Counts, tally: Tally, classes: set<string>) {
    forall k, c :: 0 <= k < |counts| && c in classes ==> c in counts[k] && counts[k][c] == |CountedFor(tally, k, c)|
  }

  lemma OneMoreCounted(tally: Tally, id: nat, roi: nat, className: string, k: nat, c: string)
    requires id !in tally
    ensures |CountedFor(tally[id := (roi, className)], k, c)| == |CountedFor(tally, k, c)| + if k == roi && c == className then 1 else 0
  {
    var before, after := CountedFor(tally, k, c), CountedFor(tally[id := (roi, className)], k, c);
    if k == roi && c == className {
      assert after == before + {id};
    } else {
      assert after == before;
    }
  }

  lemma CountOne(counts: Counts, tally: Tally, classes: set<string>, id: nat, roi: nat, className: string)
    requires Exact(counts, tally, classes) && id !in tally && roi < |counts| && className in classes
    ensures Exact(counts[roi := counts[roi][className := counts[roi][className] + 1]], tally[id := (roi, className)], classes)
  {
    hide CountedFor;
    forall k, c | 0 <= k < |counts| && c in classes
      ensures |CountedFor(tally[id := (roi, className)], k, c)| == |CountedFor(tally, k, c)| + if k == roi && c == className then 1 else 0
    {
      OneMoreCounted(tally, id, roi, className, k, c);
    }
  }

  predicate Extends(after: Tally, before: Tally) {
    forall id :: id in before ==> id in after && after[id] == before[id]
  }

  /** A tally that only grows never lets a counter go down. */
  lemma CountsNeverDrop(before: Tally, after: Tally, roi: nat, className: string)
    requires Extends(after, before)
    ensures |CountedFor(before, roi, className)| <= |CountedFor(after, roi, className)|
  {
    var a, b := CountedFor(before, roi, className), CountedFor(after, roi, className);
    assert b == a + (b - a);
  }

  /** How far a track's boxes go up to frame `f` of the `n` frames just tracked. */
  function Prefix(t: Track, n: nat, f: nat): int {
    |t.boxes| - n + f + 1
  }

  predicate Passes(t: Track, n: nat, f: nat, lines: seq<Line>)
    requires n <= |t.boxes| && f < n && t.roi < |lines|
  {
    !t.counted && Passing(t.boxes[..Prefix(t, n, f)], lines[t.roi])
  }

  class OfflineWorker {
    const rois: nat
    const lines: seq<Line>
    const classes: set<string>
    const oneClass: bool
    const minScore: real
    const duplicateIou: real
    const mergeIou: real
    const trackingScore: real
    const expiration: int
    var frames: nat
    var tracks: seq<Track>
    var trackCount: nat
    var counts: Counts
    ghost var tally: Tally

    /** The tracks are in order, their ids are used up, and the counters are exact. */
    ghost predicate Valid()
      reads this
    {
      && rois <= |lines| == |counts|
      && TracksOk(tracks, rois, classes, trackCount, tally)
      && (forall id :: id in tally ==> 0 < id <= trackCount)
      && Exact(counts, tally, classes)
    }

    constructor (rois: nat, lines: seq<Line>, classes: set<string>, oneClass: bool, minScore: real, duplicateIou: real,
                 mergeIou: real, trackingScore: real, expiration: int)
      requires rois <= |lines|
      ensures Valid() && tracks == [] && tally == map[] && trackCount == 0 && frames == 0
      ensures this.mergeIou == mergeIou && this.classes == classes
    {
      this.rois, this.lines, this.classes, this.oneClass := rois, lines, classes, oneClass;
      this.minScore, this.duplicateIou, this.mergeIou := minScore, duplicateIou, mergeIou;
      this.trackingScore, this.expiration := trackingScore, expiration;
      frames, tracks, trackCount, tally := 0, [], 0, map[];
      counts := seq(|lines|, _ => map c | c in classes :: 0);
      new;
      forall k, c | 0 <= k < |lines| && c in classes ensures |CountedFor(map[], k, c)| == 0 {
        assert CountedFor(map[], k, c) == {};
      }
    }

    // ---- Dropping tracks -----------------------------------------------------------------------------

    method KeepOnly(keep: Track -> bool)
      requires Valid()
      modifies this`tracks
      ensures Valid() && tracks == Keep(old(tracks), keep)
    {
      KeepOk(tracks, keep, rois, classes, trackCount, tally);
      var kept: seq<Track> := [];
      for k := 0 to |tracks|
        invariant tracks == old(tracks) && kept == Keep(tracks[..k], keep)
      {
        assert tracks[..k + 1][..k] == tracks[..k];
        if keep(tracks[k]) {
          kept := kept + [tracks[k]];
        }
      }
      assert tracks[..|tracks|] == tracks;
      tracks := kept;
    }

    method RemoveInactiveTracks()
      requires Valid()
      modifies this`tracks
      ensures Valid() && tracks == Keep(old(tracks), Active())
      ensures forall t :: t in tracks <==> t in old(tracks) && t.active
    {
      KeepExact(tracks, Active());
      KeepOnly(Active());
    }

    method RemoveOutOfRoisTracks(outside: (Box, nat) -> bool)
      requires Valid()
      modifies this`tracks
      ensures Valid()
      ensures tracks == Keep(old(tracks), StillInside(outside))
      ensures forall t :: t in tracks <==> t in old(tracks) && t.boxes != [] && !outside(t.boxes[|t.boxes| - 1], t.roi)
    {
      KeepExact(tracks, StillInside(outside));
      KeepOnly(StillInside(outside));
    }

    method RemoveExpiredObjects()
      requires Valid()
      modifies this`tracks
      ensures Valid()
      ensures tracks == Keep(old(tracks), SeenSince(frames, expiration))
      ensures forall t :: t in tracks <==> t in old(tracks) && frames - t.last <= expiration
    {
      KeepExact(tracks, SeenSince(frames, expiration));
      KeepOnly(SeenSince(frames, expiration));
    }

    // ---- Detections ------------------------------------------------------------------------------------

    predicate Eligible(d: Detection, t: Track)
      reads this`frames
    {
      t.start != frames && (oneClass || d.className == t.className)
    }

    /** The first of the eligible tracks with the highest overlap, or the number of tracks if none
      * overlaps at all. */
    function Best(ts: seq<Track>, d: Detection, iou: (Box, Box) -> real): (k: nat)
      requires HaveBoxes(ts)
      reads this`frames
      ensures k <= |ts|
      ensures k < |ts| ==> Eligible(d, ts[k]) && Overlap(iou, d, ts[k]) > 0.0
      ensures forall i :: 0 <= i < |ts| && Eligible(d, ts[i]) ==> Overlap(iou, d, ts[i]) <= Score(iou, d, ts, k)
      ensures k < |ts| ==> forall i :: 0 <= i < k && Eligible(d, ts[i]) ==> Overlap(iou, d, ts[i]) < Score(iou, d, ts, k)
    {
      if ts == [] then 0
      else
        var init, last := ts[..|ts| - 1], |ts| - 1;
        var k := Best(init, d, iou);
        if Eligible(d, ts[last]) && Overlap(iou, d, ts[last]) > Score(iou, d, init, k) then last
        else if k < last then k else |ts|
    }

    /** The eligible tracks that overlap a detection enough to be duplicates of track `k`. */
    function Duplicates(ts: seq<Track>, d: Detection, iou: (Box, Box) -> real, k: nat): set<nat>
      requires HaveBoxes(ts)
      reads this`frames
    {
      set i | 0 <= i < |ts| && i != k && Eligible(d, ts[i]) && Overlap(iou, d, ts[i]) > duplicateIou :: ts[i].id
    }

    /** What one detection does to the tracks. */
    function Detected(ts: seq<Track>, count: nat, d: Detection, iou: (Box, Box) -> real, inside: (Box, nat) -> bool): (r: Seen)
      requires HaveBoxes(ts)
      reads this`frames
      ensures HaveBoxes(r.tracks)
    {
      var roi := FirstInside(d.box, inside, rois);
      if d.className !in classes || d.score < minScore || roi == rois then Seen(ts, count, {})
      else
        var k := Best(ts, d, iou);
        var duplicates := Duplicates(ts, d, iou, k);
        if k < |ts| && Overlap(iou, d, ts[k]) > mergeIou then Seen(ts[k := Prolonged(ts[k], d, frames)], count, duplicates)
        else Seen(ts + [NewTrack(count + 1, d, frames, roi)], count + 1, duplicates)
    }

    /** All detections of a frame, one after the other. */
    function DetectedAll(ts: seq<Track>, count: nat, dets: seq<Detection>, iou: (Box, Box) -> real, inside: (Box, nat) -> bool): (r: Seen)
      requires HaveBoxes(ts)
      reads this`frames
      ensures HaveBoxes(r.tracks)
    {
      if dets == [] then Seen(ts, count, {})
      else
        var before := DetectedAll(ts, count, dets[..|dets| - 1], iou, inside);
        var after := Detected(before.tracks, before.count, dets[|dets| - 1], iou, inside);
        after.(duplicates := before.duplicates + after.duplicates)
    }

    /** Whether a detection is looked at at all: it lies in some region. */
    predicate Relevant(d: Detection, inside: (Box, nat) -> bool) {
      d.className in classes && d.score >= minScore && exists roi :: 0 <= roi < rois && inside(d.box, roi)
    }

    /** A detection that matters prolongs the eligible track it overlaps best, if it overlaps that one
      * by more than the limit, and otherwise starts a track under the next id in the first region it
      * lies in; it is never both, and a detection that does not matter changes nothing. */
    lemma DetectionIsPlaced(ts: seq<Track>, count: nat, d: Detection, iou: (Box, Box) -> real, inside: (Box, nat) -> bool)
      requires HaveBoxes(ts) && mergeIou >= 0.0
      ensures var r := Detected(ts, count, d, iou, inside);
              && (!Relevant(d, inside) ==> r == Seen(ts, count, {}))
              && (Relevant(d, inside) ==>
                    ((exists k :: 0 <= k < |ts| && Merged(ts, r.tracks, d, iou, k)) && r.count == count)
                    || (Started(ts, r.tracks, r.count, d, iou, inside) && r.count == count + 1))
    {
      var k := Best(ts, d, iou);
      if Relevant(d, inside) && k < |ts| && Overlap(iou, d, ts[k]) > mergeIou {
        assert Merged(ts, Detected(ts, count, d, iou, inside).tracks, d, iou, k);
      }
    }

    /** Whether a track that was not begun in this frame, of the detection's class if classes matter, overlaps the
      * detection with its latest box by more than a limit. */
    predicate Covers(t: Track, d: Detection, iou: (Box, Box) -> real, limit: real)
      requires t.boxes != []
      reads this`frames
    {
      t.start != frames && (oneClass || d.className == t.className) && iou(d.box, t.boxes[|t.boxes| - 1]) > limit
    }

    /** The track that covers the detection most was given it, the first of them if there are several. */
    ghost predicate Merged(before: seq<Track>, after: seq<Track>, d: Detection, iou: (Box, Box) -> real, k: nat)
      requires k < |before| && HaveBoxes(before)
      reads this`frames
    {
      var t, o := before[k], iou(d.box, before[k].boxes[|before[k].boxes| - 1]);
      && Covers(t, d, iou, mergeIou)
      && (forall i :: 0 <= i < |before| ==> !Covers(before[i], d, iou, o))
      && (forall i :: 0 <= i < k && Covers(before[i], d, iou, mergeIou) ==> iou(d.box, before[i].boxes[|before[i].boxes| - 1]) < o)
      && after == before[k := t.(boxes := t.boxes + [d.box], scores := t.scores + [d.score], last := frames)]
    }

    /** No track covers the detection, and a new one was added at the end. */
    ghost predicate Started(before: seq<Track>, after: seq<Track>, id: nat, d: Detection, iou: (Box, Box) -> real,
                            inside: (Box, nat) -> bool)
      requires HaveBoxes(before)
      reads this`frames
    {
      && (forall i :: 0 <= i < |before| ==> !Covers(before[i], d, iou, mergeIou))
      && exists roi :: 0 <= roi < rois && inside(d.box, roi) && (forall r :: 0 <= r < roi ==> !inside(d.box, r))
           && after == before + [Track(id, d.className, true, false, frames, frames, [d.box], [d.score], roi)]
    }

    /** The tracks to drop are those that cover a detection by more than the limit for duplicates, all but the one that
      * covers it most. */
    lemma DuplicatesExact(ts: seq<Track>, count: nat, d: Detection, iou: (Box, Box) -> real, inside: (Box, nat) -> bool, id: nat)
      requires HaveBoxes(ts) && Relevant(d, inside)
      ensures id in Detected(ts, count, d, iou, inside).duplicates <==>
              exists i :: 0 <= i < |ts| && i != Best(ts, d, iou) && Covers(ts[i], d, iou, duplicateIou) && ts[i].id == id
    {
      hide Best;
      var k := Best(ts, d, iou);
      if i :| 0 <= i < |ts| && i != k && Eligible(d, ts[i]) && Overlap(iou, d, ts[i]) > duplicateIou && ts[i].id == id {
        assert Covers(ts[i], d, iou, duplicateIou);
      }
    }

    /** Tracks begun in this frame are neither prolonged nor dropped as duplicates in it; the earlier
      * ones keep their places and ids. */
    lemma {:induction false} NewTracksStay(ts: seq<Track>, count: nat, dets: seq<Detection>, iou: (Box, Box) -> real,
                                           inside: (Box, nat) -> bool)
      requires HaveBoxes(ts) && forall i :: 0 <= i < |ts| ==> ts[i].id <= count
      ensures var r := DetectedAll(ts, count, dets, iou, inside);
              && |r.tracks| - |ts| == r.count - count >= 0
              && (forall i :: 0 <= i < |ts| ==> r.tracks[i].id == ts[i].id && r.tracks[i].start == ts[i].start)
              && (forall i :: |ts| <= i < |r.tracks| ==>
                    r.tracks[i].id == count + 1 + i - |ts| && r.tracks[i].start == frames && |r.tracks[i].boxes| == 1)
              && forall id :: id in r.duplicates ==> id <= count
    {
      if dets != [] {
        var d := dets[|dets| - 1];
        var before := DetectedAll(ts, count, dets[..|dets| - 1], iou, inside);
        NewTracksStay(ts, count, dets[..|dets| - 1], iou, inside);
        forall id | id in Duplicates(before.tracks, d, iou, Best(before.tracks, d, iou)) ensures id <= count {
          var i :| 0 <= i < |before.tracks| && Eligible(d, before.tracks[i]) && before.tracks[i].id == id;
        }
      }
    }

    /** Looks for the best overlap of a detection with an eligible track, and for all tracks it
      * overlaps enough to be a duplicate. */
    method FindMatchedObjects(d: Detection, iou: (Box, Box) -> real) returns (best: nat, bestIou: real, matched: set<nat>)
      requires HaveBoxes(tracks)
      ensures Compared(|tracks|, d, iou, best, bestIou)
      ensures matched == Duplicates(tracks, d, iou, |tracks|)
    {
      hide Best, Duplicates, Compared;
      best, bestIou, matched := 0, 0.0, {};
      NothingCompared(d, iou);
      for k := 0 to |tracks|
        invariant Compared(k, d, iou, best, bestIou)
        invariant matched == Duplicates(tracks[..k], d, iou, |tracks|)
      {
        MoreDuplicates(k, d, iou);
        OneMoreCompared(k, d, iou, best, bestIou);
        var t := tracks[k];
        if t.start != frames && (oneClass || d.className == t.className) {
          var o := iou(d.box, t.boxes[|t.boxes| - 1]);
          if o > bestIou {
            best, bestIou := t.id, o;
          }
          if o > duplicateIou {
            matched := matched + {t.id};
          }
        }
      }
      assert tracks[..|tracks|] == tracks;
    }

    /** The best of the first `n` tracks: its id and overlap. */
    predicate Compared(n: nat, d: Detection, iou: (Box, Box) -> real, best: nat, bestIou: real)
      requires HaveBoxes(tracks) && n <= |tracks|
      reads this`tracks, this`frames
    {
      var k := Best(tracks[..n], d, iou);
      best == (if k < n then tracks[k].id else 0) && bestIou == Score(iou, d, tracks[..n], k)
    }

    lemma NothingCompared(d: Detection, iou: (Box, Box) -> real)
      requires HaveBoxes(tracks)
      ensures Compared(0, d, iou, 0, 0.0) && Duplicates(tracks[..0], d, iou, |tracks|) == {}
    {
    }

    lemma OneMoreCompared(k: nat, d: Detection, iou: (Box, Box) -> real, best: nat, bestIou: real)
      requires HaveBoxes(tracks) && k < |tracks| && Compared(k, d, iou, best, bestIou)
      ensures if Eligible(d, tracks[k]) && Overlap(iou, d, tracks[k]) > bestIou
              then Compared(k + 1, d, iou, tracks[k].id, Overlap(iou, d, tracks[k]))
              else Compared(k + 1, d, iou, best, bestIou)
    {
      assert tracks[..k + 1][..k] == tracks[..k];
    }

    lemma MoreDuplicates(k: nat, d: Detection, iou: (Box, Box) -> real)
      requires HaveBoxes(tracks) && k < |tracks|
      ensures Duplicates(tracks[..k + 1], d, iou, |tracks|) ==
              Duplicates(tracks[..k], d, iou, |tracks|) +
              if Eligible(d, tracks[k]) && Overlap(iou, d, tracks[k]) > duplicateIou then {tracks[k].id} else {}
    {
      var more, less := tracks[..k + 1], tracks[..k];
      forall id ensures id in Duplicates(more, d, iou, |tracks|) <==>
                        id in Duplicates(less, d, iou, |tracks|) ||
                        (Eligible(d, tracks[k]) && Overlap(iou, d, tracks[k]) > duplicateIou && id == tracks[k].id)
      {
        if id in Duplicates(less, d, iou, |tracks|) {
          var i :| 0 <= i < |less| && Eligible(d, less[i]) && Overlap(iou, d, less[i]) > duplicateIou && less[i].id == id;
          assert more[i] == less[i];
        }
        if Eligible(d, tracks[k]) && Overlap(iou, d, tracks[k]) > duplicateIou {
          assert more[k] == tracks[k];
        }
        if id in Duplicates(more, d, iou, |tracks|) {
          var i :| 0 <= i < |more| && Eligible(d, more[i]) && Overlap(iou, d, more[i]) > duplicateIou && more[i].id == id;
          if i < k {
            assert less[i] == more[i];
          }
        }
      }
    }

    /** The first region the box lies in. */
    method FindRoi(box: Box, inside: (Box, nat) -> bool) returns (roi: nat)
      ensures roi == FirstInside(box, inside, rois)
    {
      roi := 0;
      while roi < rois && !inside(box, roi)
        invariant roi <= rois
        invariant forall k :: 0 <= k < roi ==> !inside(box, k)
      {
        roi := roi + 1;
      }
    }

    method FindTrack(id: nat) returns (k: nat)
      requires exists i :: 0 <= i < |tracks| && tracks[i].id == id
      ensures k < |tracks| && tracks[k].id == id
    {
      k := 0;
      while tracks[k].id != id
        invariant k < |tracks| && exists i :: k <= i < |tracks| && tracks[i].id == id
        decreases |tracks| - k
      {
        k := k + 1;
      }
    }

    /** One detection; the duplicates it shows are returned, not yet dropped. */
    method ProcessDetection(d: Detection, iou: (Box, Box) -> real, inside: (Box, nat) -> bool) returns (duplicates: set<nat>)
      requires Valid() && mergeIou >= 0.0
      modifies this`tracks, this`trackCount
      ensures Valid()
      ensures Seen(tracks, trackCount, duplicates) == Detected(old(tracks), old(trackCount), d, iou, inside)
    {
      hide Best, Duplicates, Valid;
      ValidHaveBoxes();
      duplicates := {};
      if d.className !in classes || d.score < minScore {
        return;
      }
      var roi := FindRoi(d.box, inside);
      if roi == rois {
        return;
      }
      var best, bestIou;
      best, bestIou, duplicates := FindBest(d, iou);
      if bestIou > mergeIou {
        Prolong(best, d, Best(tracks, d, iou));
      } else {
        StartTrack(d, roi);
      }
    }

    /** The best track and the duplicates of the detection, the best track left out. */
    method FindBest(d: Detection, iou: (Box, Box) -> real) returns (best: nat, bestIou: real, duplicates: set<nat>)
      requires Valid() && HaveBoxes(tracks)
      ensures var k := Best(tracks, d, iou);
              && bestIou == Score(iou, d, tracks, k) && (bestIou > 0.0 ==> k < |tracks|)
              && best == (if k < |tracks| then tracks[k].id else 0)
              && duplicates == Duplicates(tracks, d, iou, k)
    {
      hide Best, Duplicates, Valid;
      var matched;
      best, bestIou, matched := FindMatchedObjects(d, iou);
      assert tracks[..|tracks|] == tracks;
      duplicates := matched - {best};
      BestIsNoDuplicate(d, iou);
    }

    lemma ValidHaveBoxes()
      requires Valid()
      ensures HaveBoxes(tracks)
    {
    }

    /** A new track under the next id. */
    method StartTrack(d: Detection, roi: nat)
      requires Valid() && roi < rois && d.className in classes
      modifies this`tracks, this`trackCount
      ensures Valid() && trackCount == old(trackCount) + 1
      ensures tracks == old(tracks) + [NewTrack(trackCount, d, frames, roi)]
    {
      var t := NewTrack(trackCount + 1, d, frames, roi);
      AddedOk(tracks, t, rois, classes, trackCount, tally);
      trackCount := trackCount + 1;
      tracks := tracks + [t];
    }

    method Prolong(id: nat, d: Detection, ghost k: nat)
      requires Valid() && k < |tracks| && tracks[k].id == id
      modifies this`tracks
      ensures Valid() && tracks == old(tracks)[k := Prolonged(old(tracks)[k], d, frames)]
    {
      var at := FindTrack(id);
      var t := Prolonged(tracks[at], d, frames);
      UpdatedOk(tracks, at, t, rois, classes, trackCount, tally);
      tracks := tracks[at := t];
    }

    /** Ids being distinct and never 0, leaving out the best id leaves out the best track. */
    lemma BestIsNoDuplicate(d: Detection, iou: (Box, Box) -> real)
      requires Valid()
      ensures var k := Best(tracks, d, iou);
              Duplicates(tracks, d, iou, |tracks|) - {if k < |tracks| then tracks[k].id else 0} == Duplicates(tracks, d, iou, k)
    {
      var k := Best(tracks, d, iou);
      var best := if k < |tracks| then tracks[k].id else 0;
      forall id ensures id in Duplicates(tracks, d, iou, |tracks|) - {best} <==> id in Duplicates(tracks, d, iou, k) {
      }
    }

    /** All detections of a frame, then the duplicates go. */
    method ProcessDetections(dets: seq<Detection>, iou: (Box, Box) -> real, inside: (Box, nat) -> bool)
      requires Valid() && mergeIou >= 0.0
      modifies this`tracks, this`trackCount
      ensures Valid()
      ensures var r := DetectedAll(old(tracks), old(trackCount), dets, iou, inside);
              tracks == Keep(r.tracks, NotAmong(r.duplicates)) && trackCount == r.count
    {
      var duplicates: set<nat> := {};
      for k := 0 to |dets|
        invariant Valid()
        invariant Seen(tracks, trackCount, duplicates) == DetectedAll(old(tracks), old(trackCount), dets[..k], iou, inside)
      {
        assert dets[..k + 1][..k] == dets[..k];
        var more := ProcessDetection(dets[k], iou, inside);
        duplicates := duplicates + more;
      }
      assert dets[..|dets|] == dets;
      KeepOnly(NotAmong(duplicates));
    }

    // ---- Following and counting ------------------------------------------------------------------------

    /** Every track is followed through the remaining frames: one more box and score for each. */
    method FollowTracks(n: nat, answers: nat -> seq<(Box, real)>)
      requires Valid() && n > 0 && forall k :: 0 <= k < |tracks| ==> |answers(tracks[k].id)| == n - 1
      modifies this`tracks
      ensures Valid() && |tracks| == |old(tracks)|
      ensures forall k :: 0 <= k < |tracks| ==> tracks[k] == Followed(old(tracks)[k], answers(old(tracks)[k].id), trackingScore)
      ensures forall k :: 0 <= k < |tracks| ==> |tracks[k].boxes| >= n
    {
      for k := 0 to |tracks|
        invariant Valid() && |tracks| == |old(tracks)|
        invariant forall i :: k <= i < |tracks| ==> tracks[i] == old(tracks)[i]
        invariant forall i :: 0 <= i < k ==>
                    tracks[i] == Followed(old(tracks)[i], answers(old(tracks)[i].id), trackingScore) && |tracks[i].boxes| >= n
      {
        var t := FollowOne(tracks[k], answers(tracks[k].id));
        UpdatedOk(tracks, k, t, rois, classes, trackCount, tally);
        tracks := tracks[k := t];
      }
    }

    method FollowOne(t0: Track, answer: seq<(Box, real)>) returns (t: Track)
      requires |t0.boxes| == |t0.scores|
      ensures t == Followed(t0, answer, trackingScore)
      ensures |t.boxes| == |t.scores| == |t0.boxes| + |answer| && t.id == t0.id && t.counted == t0.counted
      ensures t.roi == t0.roi && t.className == t0.className
    {
      t := t0;
      for i := 0 to |answer|
        invariant t == Followed(t0, answer[..i], trackingScore)
        invariant |t.boxes| == |t.scores| == |t0.boxes| + i && t.id == t0.id && t.counted == t0.counted
        invariant t.roi == t0.roi && t.className == t0.className
      {
        assert answer[..i + 1][..i] == answer[..i];
        t := t.(boxes := t.boxes + [answer[i].0], scores := t.scores + [answer[i].1]);
        if answer[i].1 < trackingScore {
          t := t.(active := false);
        }
      }
      assert answer[..|answer|] == answer;
    }

    /** One frame: the first track not counted yet whose boxes so far pass its line is counted; the
      * others wait for the next frame. */
    method CountFrame(n: nat, f: nat)
      requires Valid() && f < n && Countable(tracks, n, lines)
      modifies this`tracks, this`counts, this`tally
      ensures Valid() && old(Countable(tracks, n, lines))
      ensures FrameStep(old(tracks), old(tally), tracks, tally, n, f, lines)
    {
      var k := 0;
      while k < |tracks|
        invariant k <= |tracks| && Valid() && tracks == old(tracks) && counts == old(counts) && tally == old(tally)
        invariant forall i :: 0 <= i < k ==> |tracks[i].boxes| >= n && tracks[i].roi < |lines| && !Passes(tracks[i], n, f, lines)
      {
        var t := tracks[k];
        // the boxes up to this frame, at least one
        var boxes := t.boxes[..|t.boxes| - n + f + 1];
        assert |boxes| > 0;
        if !t.counted {
          var passing := IsPassingLine(boxes, lines[t.roi]);
          if passing {
            FirstPassingIs(tracks, n, f, lines, k);
            CountTrack(k);
            return;
          }
        }
        k := k + 1;
      }
      FirstPassingIs(tracks, n, f, lines, k);
    }

    method CountTrack(k: nat)
      requires Valid() && k < |tracks| && !tracks[k].counted
      modifies this`tracks, this`counts, this`tally
      ensures Valid() && tracks == old(tracks)[k := old(tracks)[k].(counted := true)]
      ensures old(tracks)[k].id !in old(tally)
      ensures tally == old(tally)[old(tracks)[k].id := (old(tracks)[k].roi, old(tracks)[k].className)]
    {
      var t := tracks[k];
      CountOne(counts, tally, classes, t.id, t.roi, t.className);
      tracks := tracks[k := t.(counted := true)];
      counts := counts[t.roi := counts[t.roi][t.className := counts[t.roi][t.className] + 1]];
      tally := tally[t.id := (t.roi, t.className)];
    }

    lemma RoisKnown()
      requires Valid()
      ensures forall k :: 0 <= k < |tracks| ==> tracks[k].roi < |lines|
    {
    }

    /** Frame after frame. */
    method CountFrames(n: nat)
      requires Valid() && forall k :: 0 <= k < |tracks| ==> |tracks[k].boxes| >= n
      modifies this`tracks, this`counts, this`tally
      ensures Valid() && old(Countable(tracks, n, lines))
      ensures tracks == CountedAfter(old(tracks), n, n, lines)
      ensures Extends(tally, old(tally)) && Tallied(tally, old(tally), old(tracks), tracks)
    {
      RoisKnown();
      ghost var ts, start := tracks, tally;
      NoFrameYet(ts, n, lines, start);
      hide Tallied, Extends, CountedAfter, FrameStep, Countable;
      for f := 0 to n
        invariant Valid() && Countable(ts, n, lines) && Countable(tracks, n, lines)
        invariant tracks == CountedAfter(ts, n, f, lines)
        invariant Extends(tally, start) && Tallied(tally, start, ts, tracks)
      {
        ghost var before, tally0 := tracks, tally;
        CountFrame(n, f);
        FrameDone(ts, n, f, lines, start, before, tally0, tracks, tally);
      }
    }

    /** The tracks a round starts from: active, still inside and seen recently. */
    function Remaining(outside: (Box, nat) -> bool): seq<Track>
      reads this`tracks, this`frames
    {
      Keep(Keep(Keep(tracks, Active()), StillInside(outside)), SeenSince(frames, expiration))
    }

    /** Drops old tracks, then places the detections of the first frame. */
    method Detect(dets: seq<Detection>, iou: (Box, Box) -> real, inside: (Box, nat) -> bool, outside: (Box, nat) -> bool)
      requires Valid() && mergeIou >= 0.0
      modifies this`tracks, this`trackCount
      ensures Valid() && trackCount >= old(trackCount)
      ensures old(HaveBoxes(Remaining(outside)))
      ensures var r := old(DetectedAll(Remaining(outside), trackCount, dets, iou, inside));
              tracks == Keep(r.tracks, NotAmong(r.duplicates)) && trackCount == r.count
    {
      RemoveInactiveTracks();
      RemoveOutOfRoisTracks(outside);
      RemoveExpiredObjects();
      IdsUsed(tracks, trackCount, dets, iou, inside);
      ProcessDetections(dets, iou, inside);
    }

    /** Follows all tracks through the remaining frames, then counts frame by frame. */
    method FollowAndCount(n: nat, answers: nat -> seq<(Box, real)>)
      requires Valid() && n > 0 && forall id :: |answers(id)| == n - 1
      modifies this`tracks, this`counts, this`tally
      ensures Valid() && Extends(tally, old(tally))
      ensures var followed := FollowedAll(old(tracks), answers, trackingScore);
              && Countable(followed, n, lines)
              && tracks == CountedAfter(followed, n, n, lines)
              && Tallied(tally, old(tally), followed, tracks)
    {
      hide Exact, Followed, CountedAfter, Tallied;
      FollowTracks(n, answers);
      assert tracks == FollowedAll(old(tracks), answers, trackingScore);
      CountFrames(n);
    }

    /** One round over a window of frames: tracks are dropped, detections placed, duplicates dropped,
      * all tracks followed and crossings counted, in this order. Ids are never used again, what has
      * been counted stays counted, and no counter ever goes down. */
    method Round(n: nat, dets: seq<Detection>, iou: (Box, Box) -> real, inside: (Box, nat) -> bool, outside: (Box, nat) -> bool,
                 answers: nat -> seq<(Box, real)>)
      requires Valid() && mergeIou >= 0.0 && n > 0 && forall id :: |answers(id)| == n - 1
      modifies this
      ensures Valid() && frames == old(frames) + n && trackCount >= old(trackCount)
      ensures old(HaveBoxes(Remaining(outside)))
      ensures var r := old(DetectedAll(Remaining(outside), trackCount, dets, iou, inside));
              var followed := FollowedAll(Keep(r.tracks, NotAmong(r.duplicates)), answers, trackingScore);
              && trackCount == r.count
              && Countable(followed, n, lines)
              && tracks == CountedAfter(followed, n, n, lines)
              && Tallied(tally, old(tally), followed, tracks)
      ensures Extends(tally, old(tally))
      ensures forall k, c :: 0 <= k < |lines| && c in classes ==>
                && c in old(counts)[k] && c in counts[k]
                && old(counts)[k][c] <= counts[k][c] == |CountedFor(tally, k, c)|
    {
      hide Keep, DetectedAll, CountedAfter, CountedFor, Tallied, TracksOk, FollowedAll;
      Detect(dets, iou, inside, outside);
      FollowAndCount(n, answers);
      frames := frames + n;
      forall k, c | 0 <= k < |lines| && c in classes
        ensures c in old(counts)[k] && c in counts[k] && old(counts)[k][c] <= counts[k][c] == |CountedFor(tally, k, c)|
      {
        CountsNeverDrop(old(tally), tally, k, c);
      }
    }

    /** Ids are only ever counted up. */
    lemma {:induction false} IdsUsed(ts: seq<Track>, count: nat, dets: seq<Detection>, iou: (Box, Box) -> real, inside: (Box, nat) -> bool)
      requires HaveBoxes(ts)
      ensures DetectedAll(ts, count, dets, iou, inside).count >= count
    {
      if dets != [] {
        IdsUsed(ts, count, dets[..|dets| - 1], iou, inside);
      }
    }
  }

  // ---- What the steps do to a track -------------------------------------------------------------------

  /** Tracks so far, ids used, and ids of tracks to drop. */
  datatype Seen = Seen(tracks: seq<Track>, count: nat, duplicates: set<nat>)

  predicate HaveBoxes(ts: seq<Track>) {
    forall i :: 0 <= i < |ts| ==> ts[i].boxes != []
  }

  /** The first of the first `n` regions the box lies in, or `n`. */
  function FirstInside(box: Box, inside: (Box, nat) -> bool, n: nat): (roi: nat)
    ensures roi <= n
    ensures roi < n ==> inside(box, roi)
    ensures forall k :: 0 <= k < roi ==> !inside(box, k)
  {
    if n == 0 then 0
    else
      var roi := FirstInside(box, inside, n - 1);
      if roi < n - 1 then roi else if inside(box, n - 1) then n - 1 else n
  }

  /** The overlap with track `k`, or none. */
  function Score(iou: (Box, Box) -> real, d: Detection, ts: seq<Track>, k: nat): real
    requires HaveBoxes(ts)
  {
    if k < |ts| then Overlap(iou, d, ts[k]) else 0.0
  }

  function Overlap(iou: (Box, Box) -> real, d: Detection, t: Track): real
    requires t.boxes != []
  {
    iou(d.box, t.boxes[|t.boxes| - 1])
  }

  function Prolonged(t: Track, d: Detection, frame: nat): Track {
    t.(boxes := t.boxes + [d.box], scores := t.scores + [d.score], last := frame)
  }

  function NewTrack(id: nat, d: Detection, frame: nat, roi: nat): Track {
    Track(id, d.className, true, false, frame, frame, [d.box], [d.score], roi)
  }

  /** A track after the tracker's answers, frame by frame. */
  function Followed(t: Track, answers: seq<(Box, real)>, threshold: real): Track {
    if answers == [] then t
    else
      var r, a := Followed(t, answers[..|answers| - 1], threshold), answers[|answers| - 1];
      r.(boxes := r.boxes + [a.0], scores := r.scores + [a.1], active := r.active && a.1 >= threshold)
  }

  /** What a track has become: a box and a score for every answer, in order, and it is active still if no answer is below
    * the threshold. */
  lemma {:induction false} FollowedExact(t: Track, answers: seq<(Box, real)>, threshold: real)
    ensures var r := Followed(t, answers, threshold);
            && r.boxes == t.boxes + seq(|answers|, i requires 0 <= i < |answers| => answers[i].0)
            && r.scores == t.scores + seq(|answers|, i requires 0 <= i < |answers| => answers[i].1)
            && (r.active <==> t.active && forall i :: 0 <= i < |answers| ==> answers[i].1 >= threshold)
            && r == t.(boxes := r.boxes, scores := r.scores, active := r.active)
  {
    if answers != [] {
      var init := answers[..|answers| - 1];
      FollowedExact(t, init, threshold);
      assert seq(|answers|, i requires 0 <= i < |answers| => answers[i].0)
          == seq(|init|, i requires 0 <= i < |init| => init[i].0) + [answers[|init|].0];
      assert seq(|answers|, i requires 0 <= i < |answers| => answers[i].1)
          == seq(|init|, i requires 0 <= i < |init| => init[i].1) + [answers[|init|].1];
      assert answers == init + [answers[|init|]];
    }
  }

  /** What is looked at in frame `f`: the boxes from before the round, that of its first frame, and one for each frame
    * since, up to this one. */
  lemma SeenUpTo(t: Track, answers: seq<(Box, real)>, threshold: real, f: nat)
    requires f <= |answers|
    ensures var r := Followed(t, answers, threshold);
            && 0 <= Prefix(r, |answers| + 1, f) <= |r.boxes|
            && r.boxes[..Prefix(r, |answers| + 1, f)] == t.boxes + seq(f, i requires 0 <= i < f => answers[i].0)
  {
    FollowedExact(t, answers, threshold);
  }

  /** The first track that passes its line in frame `f`, or the number of tracks. */
  function FirstPassing(ts: seq<Track>, n: nat, f: nat, lines: seq<Line>): (k: nat)
    requires f < n && Countable(ts, n, lines)
    ensures k <= |ts|
    ensures k < |ts| ==> Passes(ts[k], n, f, lines)
    ensures forall i :: 0 <= i < k ==> !Passes(ts[i], n, f, lines)
  {
    if ts == [] then 0
    else
      var k := FirstPassing(ts[..|ts| - 1], n, f, lines);
      if k < |ts| - 1 then k else if Passes(ts[|ts| - 1], n, f, lines) then |ts| - 1 else |ts|
  }

  lemma FirstPassingIs(ts: seq<Track>, n: nat, f: nat, lines: seq<Line>, k: nat)
    requires f < n && Countable(ts, n, lines)
    requires k <= |ts| && (k < |ts| ==> Passes(ts[k], n, f, lines))
    requires forall i :: 0 <= i < k ==> !Passes(ts[i], n, f, lines)
    ensures FirstPassing(ts, n, f, lines) == k
  {
  }

  function FollowedAll(ts: seq<Track>, answers: nat -> seq<(Box, real)>, threshold: real): seq<Track> {
    seq(|ts|, k requires 0 <= k < |ts| => Followed(ts[k], answers(ts[k].id), threshold))
  }

  // ---- Counting, frame by frame -------------------------------------------------------------------------

  /** Every track reaches back through the frames just tracked and belongs to a line. */
  predicate Countable(ts: seq<Track>, n: nat, lines: seq<Line>) {
    forall i :: 0 <= i < |ts| ==> |ts[i].boxes| >= n && ts[i].roi < |lines|
  }

  /** In one frame the first track that passes is marked and put into the tally; if none passes,
    * nothing changes. */
  ghost predicate FrameStep(before: seq<Track>, tally0: Tally, after: seq<Track>, tally: Tally, n: nat, f: nat, lines: seq<Line>)
    requires f < n && Countable(before, n, lines)
  {
    var k := FirstPassing(before, n, f, lines);
    if k == |before| then after == before && tally == tally0
    else
      var t := before[k];
      && after == before[k := t.(counted := true)]
      && t.id !in tally0
      && tally == tally0[t.id := (t.roi, t.className)]
  }

  lemma NoFrameYet(ts: seq<Track>, n: nat, lines: seq<Line>, tally: Tally)
    requires Countable(ts, n, lines)
    ensures CountedAfter(ts, n, 0, lines) == ts && Extends(tally, tally) && Tallied(tally, tally, ts, ts)
  {
  }

  lemma FrameDone(ts: seq<Track>, n: nat, f: nat, lines: seq<Line>, start: Tally, before: seq<Track>, tally0: Tally,
                  after: seq<Track>, tally: Tally)
    requires f < n && Countable(ts, n, lines) && Countable(before, n, lines)
    requires before == CountedAfter(ts, n, f, lines) && FrameStep(before, tally0, after, tally, n, f, lines)
    requires Extends(tally0, start) && Tallied(tally0, start, ts, before)
    ensures after == CountedAfter(ts, n, f + 1, lines) && Countable(after, n, lines)
    ensures Extends(tally, start) && Tallied(tally, start, ts, after)
  {
    hide Passing, FirstPassing, Tallied;
    OneMoreTallied(start, tally0, tally, ts, before, FirstPassing(before, n, f, lines));
  }

  /** The tracks after the first `f` of `n` frames: in each, the first that passes is marked. */
  function CountedAfter(ts: seq<Track>, n: nat, f: nat, lines: seq<Line>): (r: seq<Track>)
    requires f <= n && Countable(ts, n, lines)
    ensures |r| == |ts|
    ensures forall i :: 0 <= i < |ts| ==> r[i] == ts[i].(counted := r[i].counted) && (ts[i].counted ==> r[i].counted)
  {
    if f == 0 then ts
    else
      var r := CountedAfter(ts, n, f - 1, lines);
      var k := FirstPassing(r, n, f - 1, lines);
      if k < |r| then r[k := r[k].(counted := true)] else r
  }

  /** The tally has grown by exactly the tracks counted meanwhile. */
  ghost predicate Tallied(tally: Tally, before: Tally, from: seq<Track>, to: seq<Track>) {
    && |from| == |to|
    && (forall id :: id in tally <==> id in before || exists i :: NewlyCounted(from, to, i, id))
    && forall i :: 0 <= i < |to| && to[i].counted && !from[i].counted ==> to[i].id in tally && tally[to[i].id] == (to[i].roi, to[i].className)
  }

  /** The track is counted now and was not before. */
  predicate NewlyCounted(from: seq<Track>, to: seq<Track>, i: nat, id: nat)
    requires |from| == |to|
  {
    i < |to| && to[i].id == id && to[i].counted && !from[i].counted
  }

  /** One more track counted and put into the tally, or nothing changed. */
  lemma OneMoreTallied(start: Tally, before: Tally, after: Tally, from: seq<Track>, mid: seq<Track>, k: nat)
    requires Tallied(before, start, from, mid) && |from| == |mid| && k <= |mid|
    requires forall i :: 0 <= i < |mid| ==> mid[i] == from[i].(counted := mid[i].counted) && (from[i].counted ==> mid[i].counted)
    requires k < |mid| ==> !mid[k].counted && mid[k].id !in before && after == before[mid[k].id := (mid[k].roi, mid[k].className)]
    requires k == |mid| ==> after == before
    ensures Tallied(after, start, from, if k < |mid| then mid[k := mid[k].(counted := true)] else mid)
  {
    if k < |mid| {
      var to := mid[k := mid[k].(counted := true)];
      forall id ensures id in after <==> id in start || exists i :: NewlyCounted(from, to, i, id) {
        TalliedOne(start, before, from, mid, to, k, id);
      }
    }
  }

  lemma TalliedOne(start: Tally, before: Tally, from: seq<Track>, mid: seq<Track>, to: seq<Track>, k: nat, id: nat)
    requires Tallied(before, start, from, mid) && |from| == |mid| && k < |mid|
    requires to == mid[k := mid[k].(counted := true)] && !from[k].counted && !mid[k].counted
    ensures (id in before || id == mid[k].id) <==> (id in start || exists i :: NewlyCounted(from, to, i, id))
  {
    if i :| NewlyCounted(from, mid, i, id) {
      assert NewlyCounted(from, to, i, id);
    }
    if id == mid[k].id {
      assert NewlyCounted(from, to, k, id);
    }
    if i :| NewlyCounted(from, to, i, id) {
      assert i != k ==> NewlyCounted(from, mid, i, id);
    }
  }

  /** Tracks before position `i` that are not counted yet. */
  function Waiting(ts: seq<Track>, i: nat): (n: nat)
    requires i <= |ts|
    ensures n <= i
  {
    if i == 0 then 0 else Waiting(ts, i - 1) + if ts[i - 1].counted then 0 else 1
  }

  lemma {:induction false} WaitingLess(a: seq<Track>, k: nat, i: nat)
    requires k < i <= |a| && !a[k].counted
    ensures Waiting(a[k := a[k].(counted := true)], i) == Waiting(a, i) - 1
  {
    var b := a[k := a[k].(counted := true)];
    if k < i - 1 {
      WaitingLess(a, k, i - 1);
    } else {
      WaitingSame(a, b, k);
    }
  }

  lemma {:induction false} WaitingSame(a: seq<Track>, b: seq<Track>, i: nat)
    requires i <= |a| && i <= |b| && forall k :: 0 <= k < i ==> a[k].counted == b[k].counted
    ensures Waiting(a, i) == Waiting(b, i)
  {
    if i > 0 {
      WaitingSame(a, b, i - 1);
    }
  }

  /** One more frame: a counted track stays counted; a passing one is counted unless an uncounted
    * one before it is. */
  lemma OneMoreFrame(ts: seq<Track>, n: nat, f: nat, i: nat, lines: seq<Line>)
    requires f < n && Countable(ts, n, lines) && i < |ts|
    ensures var r, next := CountedAfter(ts, n, f, lines), CountedAfter(ts, n, f + 1, lines);
            && (r[i].counted ==> next[i].counted)
            && (Passing(ts[i].boxes[..Prefix(ts[i], n, f)], lines[ts[i].roi]) ==> next[i].counted || Waiting(next, i) < Waiting(r, i))
  {
    hide Passing, FirstPassing, Waiting;
    var r := CountedAfter(ts, n, f, lines);
    var k := FirstPassing(r, n, f, lines);
    assert r[i] == ts[i].(counted := r[i].counted);
    if Passing(ts[i].boxes[..Prefix(ts[i], n, f)], lines[ts[i].roi]) && !r[i].counted && k < i {
      WaitingLess(r, k, i);
    }
  }

  lemma {:induction false} StaysCounted(ts: seq<Track>, n: nat, f: nat, g: nat, i: nat, lines: seq<Line>)
    requires f <= g <= n && Countable(ts, n, lines) && i < |ts|
    requires CountedAfter(ts, n, f, lines)[i].counted
    ensures CountedAfter(ts, n, g, lines)[i].counted
    decreases g
  {
    hide CountedAfter, Waiting, Passing;
    if f < g {
      StaysCounted(ts, n, f, g - 1, i, lines);
      OneMoreFrame(ts, n, g - 1, i, lines);
    }
  }

  /** Only one track is counted in a frame, but each gets its turn: a track that passes its line in
    * frame `f` and in one more frame for every uncounted track before it has been counted by then. */
  lemma {:induction false} CountedInTurn(ts: seq<Track>, n: nat, f: nat, i: nat, lines: seq<Line>, w: nat)
    requires f + w < n && Countable(ts, n, lines) && i < |ts|
    requires Waiting(CountedAfter(ts, n, f, lines), i) <= w
    requires forall g :: f <= g <= f + w ==> Passing(ts[i].boxes[..Prefix(ts[i], n, g)], lines[ts[i].roi])
    ensures CountedAfter(ts, n, f + w + 1, lines)[i].counted
    decreases w
  {
    hide CountedAfter, Waiting, Passing;
    OneMoreFrame(ts, n, f, i, lines);
    if CountedAfter(ts, n, f + 1, lines)[i].counted {
      StaysCounted(ts, n, f + 1, f + w + 1, i, lines);
    } else {
      CountedInTurn(ts, n, f + 1, i, lines, w - 1);
    }
  }
}
