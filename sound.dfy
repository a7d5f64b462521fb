/**
 * The sound tracks of the sound manager. A `SoundObject` is one audio
 * track with a small play state (`isPlaying`, `isPause`) and two events;
 * a `SoundObjectPool` owns a bounded list of tracks, picks one for each
 * sound to play and keeps the list ordered by priority.
 *
 * A `SoundData` asset is identified by a number. The `AudioSource` a track
 * drives is reduced to whether it is playing and its playback position.
 */
module Sound {
  import opened Wrappers
  import opened Sequences

  /** Subscribers of `onStop`: the pool's hide-after-stop handler, or anyone else. */
  datatype StopListener = HideInPool | OnStopSubscriber(id: nat)

  /** Subscribers of `onDestroy`: a pool's remove-from-list handler, or anyone else. */
  datatype DestroyListener = LeavePool(pool: SoundObjectPool) | OnDestroySubscriber(id: nat)

  class SoundObject {
    var soundData: Option<nat>
    var priority: int
    var isPlaying: bool
    var isPause: bool
    /** The position saved by `Pause`, restored by `Play`. */
    var time: real
    /** `audioSource.isPlaying` and `audioSource.time`. */
    var sourcePlaying: bool
    var sourceTime: real
    /** `gameObject.activeSelf`. */
    var active: bool
    var onStop: seq<StopListener>
    var onDestroy: seq<DestroyListener>
    /** The other subscribers notified so far, in order. */
    var notified: seq<nat>

    /** A pause is always a pause of something playing. */
    ghost predicate Valid()
      reads this`isPause, this`isPlaying
    {
      isPause ==> isPlaying
    }

    /** An instance of the track prefab, active when the prefab is. */
    constructor (active: bool)
      ensures Valid() && !isPlaying && !isPause && time == 0.0
      ensures soundData == None && priority == 0 && this.active == active
      ensures onStop == [] && onDestroy == [] && notified == [] && !sourcePlaying
    {
      soundData := None;
      priority := 0;
      isPlaying := false;
      isPause := false;
      time := 0.0;
      sourcePlaying := false;
      sourceTime := 0.0;
      this.active := active;
      onStop := [];
      onDestroy := [];
      notified := [];
    }

    /** `Init`: the track takes the sound and its priority. Clip and loop times are not modelled. */
    method Init(soundData: nat, priority: int)
      modifies this`soundData, this`priority
      ensures this.soundData == Some(soundData) && this.priority == priority
    {
      this.soundData := Some(soundData);
      this.priority := priority;
    }

    /** `Play`: starts a stopped track, or resumes a paused one where it left off. */
    method Play()
      requires Valid()
      modifies this`isPlaying, this`isPause, this`sourcePlaying, this`sourceTime
      ensures Valid() && isPlaying && !isPause
      ensures old(!isPlaying || isPause) ==> sourcePlaying && sourceTime == time
      ensures old(isPlaying && !isPause) ==> sourcePlaying == old(sourcePlaying) && sourceTime == old(sourceTime)
    {
      if !isPlaying || isPause {
        isPlaying := true;
        isPause := false;
        sourcePlaying := true;
        sourceTime := time;
      }
    }

    /** `Pause`: remembers the source's playback position and stops the source. */
    method Pause()
      requires Valid()
      modifies this`isPause, this`time, this`sourcePlaying
      ensures Valid()
      ensures old(isPlaying && !isPause) ==> isPause && time == old(sourceTime) && !sourcePlaying
      ensures old(!isPlaying || isPause) ==> isPause == old(isPause) && time == old(time) && sourcePlaying == old(sourcePlaying)
    {
      if isPlaying && !isPause {
        isPause := true;
        time := sourceTime;
        sourcePlaying := false;
      }
    }

    /**
     * `Stop`: a playing (or paused) track stops, forgets its position,
     * notifies every `onStop` subscriber once, in order, and drops them.
     */
    method Stop()
      requires Valid()
      modifies this`isPlaying, this`isPause, this`time, this`sourcePlaying, this`active, this`notified, this`onStop
      ensures Valid() && !isPlaying && !isPause
      ensures old(isPlaying) ==> time == 0.0 && !sourcePlaying && onStop == []
      ensures old(isPlaying) ==> notified == old(notified) + Subscribers(old(onStop))
      ensures old(isPlaying) ==> active == (old(active) && HideInPool !in old(onStop))
      ensures !old(isPlaying) ==> time == old(time) && sourcePlaying == old(sourcePlaying)
      ensures !old(isPlaying) ==> onStop == old(onStop) && notified == old(notified) && active == old(active)
    {
      if isPlaying {
        isPlaying := false;
        isPause := false;
        time := 0.0;
        sourcePlaying := false;
        InvokeOnStop(onStop);
        onStop := [];
      }
    }

    /** `onStop?.Invoke(this)`: each listener in subscription order. */
    method InvokeOnStop(listeners: seq<StopListener>)
      modifies this`active, this`notified
      ensures notified == old(notified) + Subscribers(listeners)
      ensures active == (old(active) && HideInPool !in listeners)
    {
      var i := 0;
      while i < |listeners|
        invariant 0 <= i <= |listeners|
        invariant notified == old(notified) + Subscribers(listeners[..i])
        invariant active == (old(active) && HideInPool !in listeners[..i])
      {
        ghost var done := listeners[..i];
        var l := listeners[i];
        assert listeners[..i + 1] == done + [l];
        Deliver(l);
        SubscribersSnoc(done, l);
        i := i + 1;
      }
      assert listeners[..|listeners|] == listeners;
    }

    /** One `onStop` listener receives the event. */
    method Deliver(l: StopListener)
      modifies this`active, this`notified
      ensures notified == old(notified) + StopId(l)
      ensures active == (old(active) && l != HideInPool)
    {
      match l {
        case HideInPool =>
          // obj.gameObject.SetActive(false); the re-parenting is not modelled
          active := false;
        case OnStopSubscriber(id) =>
          notified := notified + [id];
      }
    }

    /** The pools whose remove-from-list handler is subscribed to `onDestroy`. */
    ghost function DestroyPools(): set<SoundObjectPool>
      reads this`onDestroy
    {
      set l | l in onDestroy && l.LeavePool? :: l.pool
    }

    /**
     * `OnDestroy`: notifies every `onDestroy` subscriber once, in order, and
     * drops them; each subscribed pool removes the track from its list.
     */
    method OnDestroy()
      modifies this`notified, this`onDestroy, DestroyPools()`soundObjects
      ensures onDestroy == [] && notified == old(notified) + DestroySubscribers(old(onDestroy))
      ensures forall p :: p in old(DestroyPools()) ==>
        p.soundObjects == RemoveTimes(old(p.soundObjects), this, Count(old(onDestroy), LeavePool(p)))
    {
      var listeners := onDestroy;
      ghost var pools := DestroyPools();
      ghost var before := map p | p in pools :: p.soundObjects;
      var i := 0;
      while i < |listeners|
        invariant 0 <= i <= |listeners| && onDestroy == listeners
        invariant notified == old(notified) + DestroySubscribers(listeners[..i])
        invariant forall p :: p in pools ==>
          p.soundObjects == RemoveTimes(before[p], this, Count(listeners[..i], LeavePool(p)))
      {
        var l := listeners[i];
        assert l in onDestroy;
        assert listeners[..i + 1] == listeners[..i] + [l];
        Notify(l, pools, before, listeners[..i]);
        i := i + 1;
      }
      assert listeners[..|listeners|] == listeners;
      onDestroy := [];
    }

    /** One `onDestroy` subscriber: a pool drops the track (`soundObjects?.Remove(obj)`), anyone else is notified. */
    method Notify(l: DestroyListener, ghost pools: set<SoundObjectPool>, ghost before: map<SoundObjectPool, seq<SoundObject>>,
                  ghost done: seq<DestroyListener>)
      requires pools <= before.Keys
      requires forall p :: p in pools ==> p.soundObjects == RemoveTimes(before[p], this, Count(done, LeavePool(p)))
      modifies this`notified, (if l.LeavePool? then {l.pool} else {})`soundObjects
      ensures notified == old(notified) + DestroyId(l)
      ensures l.LeavePool? ==> l.pool.soundObjects == RemoveFirst(old(l.pool.soundObjects), this)
      ensures forall p :: p in pools ==> p.soundObjects == RemoveTimes(before[p], this, Count(done + [l], LeavePool(p)))
    {
      match l {
        case LeavePool(pool) =>
          pool.soundObjects := RemoveFirst(pool.soundObjects, this);
        case OnDestroySubscriber(id) =>
          notified := notified + [id];
      }
      forall p | p in pools
        ensures p.soundObjects == RemoveTimes(before[p], this, Count(done + [l], LeavePool(p)))
      {
        assert p.soundObjects == if l == LeavePool(p) then RemoveFirst(old(p.soundObjects), this) else old(p.soundObjects);
        RemoveStep(before[p], this, done, l, p, old(p.soundObjects), p.soundObjects);
      }
    }
  }

  /** The ids of the other subscribers in a list of `onStop` listeners. */
  function Subscribers(ls: seq<StopListener>): seq<nat>
  {
    if ls == [] then [] else Subscribers(ls[..|ls| - 1]) + StopId(ls[|ls| - 1])
  }

  lemma SubscribersSnoc(ls: seq<StopListener>, l: StopListener)
    ensures Subscribers(ls + [l]) == Subscribers(ls) + StopId(l)
    ensures HideInPool !in ls + [l] <==> HideInPool !in ls && l != HideInPool
  {
    assert (ls + [l])[..|ls|] == ls;
  }

  /** One more listener: the pool's list loses the track once more exactly when the listener is that pool's. */
  lemma RemoveStep(b: seq<SoundObject>, x: SoundObject, ls: seq<DestroyListener>, l: DestroyListener,
                   p: SoundObjectPool, cur: seq<SoundObject>, next: seq<SoundObject>)
    requires cur == RemoveTimes(b, x, Count(ls, LeavePool(p)))
    requires next == if l == LeavePool(p) then RemoveFirst(cur, x) else cur
    ensures next == RemoveTimes(b, x, Count(ls + [l], LeavePool(p)))
  {
    var c := Count(ls, LeavePool(p));
    CountSnoc(ls, l, LeavePool(p));
    if l == LeavePool(p) {
      assert Count(ls + [l], LeavePool(p)) == c + 1;
      RemoveTimesNext(b, x, c);
    } else {
      assert Count(ls + [l], LeavePool(p)) == c;
    }
  }

  function StopId(l: StopListener): seq<nat>
  {
    match l
    case OnStopSubscriber(id) => [id]
    case HideInPool => []
  }

  function DestroySubscribers(ls: seq<DestroyListener>): seq<nat>
  {
    if ls == [] then [] else DestroySubscribers(ls[..|ls| - 1]) + DestroyId(ls[|ls| - 1])
  }

  function DestroyId(l: DestroyListener): seq<nat>
  {
    match l
    case OnDestroySubscriber(id) => [id]
    case LeavePool(_) => []
  }

  // ---------------------------------------------------------------------
  // ordering by priority

  /** The comparison as the source writes it: `a.priority - b.priority` in 32-bit arithmetic. */
  function PriorityDifference32(a: int, b: int): int
  {
    Wrap32(a - b)
  }

  /** Two's-complement 32-bit wrap-around. */
  function Wrap32(x: int): (r: int)
    ensures -0x8000_0000 <= r < 0x8000_0000
    ensures (r - x) % 0x1_0000_0000 == 0
  {
    var u := x % 0x1_0000_0000;
    if u >= 0x8000_0000 then u - 0x1_0000_0000 else u
  }

  /**
   * The subtraction wraps for far-apart priorities: the source's comparer
   * orders int.MinValue below 0 and 0 below 1, yet int.MinValue above 1.
   */
  lemma PriorityDifferenceNotTransitive()
    ensures PriorityDifference32(-0x8000_0000, 0) < 0
    ensures PriorityDifference32(0, 1) < 0
    ensures PriorityDifference32(-0x8000_0000, 1) > 0
  {
  }

  /** The comparison evidently intended: `a.priority.CompareTo(b.priority)`. */
  function ComparePriority(a: int, b: int): (c: int)
    ensures c < 0 <==> a < b
    ensures c == 0 <==> a == b
  {
    if a < b then -1 else if a == b then 0 else 1
  }

  /** The intended comparison is a total order: antisymmetric and transitive. */
  lemma ComparePriorityIsOrder(a: int, b: int, c: int)
    ensures ComparePriority(a, b) == -ComparePriority(b, a)
    ensures ComparePriority(a, b) <= 0 && ComparePriority(b, c) <= 0 ==> ComparePriority(a, c) <= 0
  {
  }

  ghost predicate SortedByPriority(s: seq<SoundObject>)
    reads s`priority
  {
    forall i, j :: 0 <= i < j < |s| ==> s[i].priority <= s[j].priority
  }

  /**
   * `soundObjects.Sort(...)` with the intended comparison: ascending
   * priority, a permutation of the list. (List.Sort may order equal
   * priorities either way; this sort keeps them in list order.)
   */
  method SortByPriority(s: seq<SoundObject>) returns (r: seq<SoundObject>)
    ensures multiset(r) == multiset(s)
    ensures SortedByPriority(r)
  {
    r := [];
    var i := 0;
    while i < |s|
      invariant 0 <= i <= |s|
      invariant multiset(r) == multiset(s[..i])
      invariant SortedByPriority(r)
    {
      r := InsertByPriority(r, s[i]);
      assert s[..i + 1] == s[..i] + [s[i]];
      i := i + 1;
    }
    assert s[..|s|] == s;
  }

  /** Puts `x` after every track of no greater priority. */
  method InsertByPriority(r: seq<SoundObject>, x: SoundObject) returns (r': seq<SoundObject>)
    requires SortedByPriority(r)
    ensures multiset(r') == multiset(r) + multiset{x}
    ensures SortedByPriority(r')
  {
    var j := 0;
    while j < |r| && ComparePriority(r[j].priority, x.priority) <= 0
      invariant 0 <= j <= |r|
      invariant forall k :: 0 <= k < j ==> r[k].priority <= x.priority
    {
      j := j + 1;
    }
    assert r == r[..j] + r[j..];
    r' := r[..j] + [x] + r[j..];
    InsertKeepsSorted(r, j, x);
  }

  lemma InsertKeepsSorted(r: seq<SoundObject>, j: nat, x: SoundObject)
    requires j <= |r| && SortedByPriority(r)
    requires forall k :: 0 <= k < j ==> r[k].priority <= x.priority
    requires j < |r| ==> x.priority < r[j].priority
    ensures SortedByPriority(r[..j] + [x] + r[j..])
  {
    var r' := r[..j] + [x] + r[j..];
    assert forall k :: 0 <= k < j ==> r'[k] == r[k];
    assert r'[j] == x;
    assert forall k :: j < k < |r'| ==> r'[k] == r[k - 1];
  }

  // ---------------------------------------------------------------------
  // the pool

  /** The first track, in list order, that is playing `data`. */
  function FirstPlaying(tracks: seq<SoundObject>, data: nat): (r: Option<nat>)
    reads tracks`soundData, tracks`isPlaying
    ensures r.Some? ==> r.value < |tracks| && tracks[r.value].soundData == Some(data) && tracks[r.value].isPlaying
    ensures r.Some? ==> forall k :: 0 <= k < r.value ==> !(tracks[k].soundData == Some(data) && tracks[k].isPlaying)
    ensures r.None? <==> PlayingCount(tracks, data) == 0
  {
    if tracks == [] then None
    else if tracks[0].soundData == Some(data) && tracks[0].isPlaying then Some(0)
    else match FirstPlaying(tracks[1..], data)
      case None => None
      case Some(k) => Some(k + 1)
  }

  /** `FindAll(x => x.soundData == soundData && x.isPlaying).Count`. */
  function PlayingCount(tracks: seq<SoundObject>, data: nat): (n: nat)
    reads tracks`soundData, tracks`isPlaying
    ensures n <= |tracks|
  {
    if tracks == [] then 0
    else (if tracks[0].soundData == Some(data) && tracks[0].isPlaying then 1 else 0) + PlayingCount(tracks[1..], data)
  }

  /** `Find(x => !x.isPlaying)`: the first idle track. */
  function FirstIdle(tracks: seq<SoundObject>): (r: Option<nat>)
    reads tracks`isPlaying
    ensures r.Some? ==> r.value < |tracks| && !tracks[r.value].isPlaying
    ensures r.Some? ==> forall k :: 0 <= k < r.value ==> tracks[k].isPlaying
    ensures r.None? ==> forall k :: 0 <= k < |tracks| ==> tracks[k].isPlaying
  {
    if tracks == [] then None
    else if !tracks[0].isPlaying then Some(0)
    else match FirstIdle(tracks[1..])
      case None => None
      case Some(k) => Some(k + 1)
  }

  /** A track that plays `data` at `priority`: started, not paused, shown. */
  ghost predicate Playing(t: SoundObject, data: nat, priority: int)
    reads t
  {
    t.Valid() && t.isPlaying && !t.isPause && t.active && t.soundData == Some(data) && t.priority == priority
  }

  datatype Pick = Reuse(index: nat) | Grow | NoTrack

  /**
   * The track `Play` takes: once `polyphonySize` tracks already play the
   * sound, the oldest of them; otherwise the first idle track, else a new
   * track while the list is below `maxSize`, else the lowest-priority
   * (first) track. `NoTrack` when the list to take from is empty.
   */
  function PickTrack(tracks: seq<SoundObject>, data: nat, polyphonySize: int, maxSize: int): (p: Pick)
    reads tracks`soundData, tracks`isPlaying
    ensures p.Reuse? ==> p.index < |tracks|
    ensures PlayingCount(tracks, data) >= polyphonySize ==> !p.Grow? && (p.NoTrack? <==> PlayingCount(tracks, data) == 0)
    ensures PlayingCount(tracks, data) >= polyphonySize && p.Reuse? ==>
              tracks[p.index].soundData == Some(data) && tracks[p.index].isPlaying &&
              forall k :: 0 <= k < p.index ==> !(tracks[k].soundData == Some(data) && tracks[k].isPlaying)
    ensures PlayingCount(tracks, data) < polyphonySize ==>
              (p.Grow? <==> (forall k :: 0 <= k < |tracks| ==> tracks[k].isPlaying) && |tracks| < maxSize)
    ensures PlayingCount(tracks, data) < polyphonySize ==> (p.NoTrack? <==> tracks == [] && maxSize <= 0)
    ensures PlayingCount(tracks, data) < polyphonySize && p.Reuse? ==>
              (!tracks[p.index].isPlaying && forall k :: 0 <= k < p.index ==> tracks[k].isPlaying) ||
              (p.index == 0 && |tracks| >= maxSize && forall k :: 0 <= k < |tracks| ==> tracks[k].isPlaying)
  {
    if PlayingCount(tracks, data) >= polyphonySize then
      match FirstPlaying(tracks, data)
      case None => NoTrack
      case Some(k) => Reuse(k)
    else
      match FirstIdle(tracks)
      case Some(k) => Reuse(k)
      case None =>
        if |tracks| < maxSize then Grow
        else if tracks == [] then NoTrack
        else Reuse(0)
  }

  /** `Play` fails only for a non-positive polyphony or pool size. */
  lemma PickFailsOnlyWhenMisconfigured(tracks: seq<SoundObject>, data: nat, polyphonySize: int, maxSize: int)
    ensures PickTrack(tracks, data, polyphonySize, maxSize).NoTrack? ==> polyphonySize <= 0 || maxSize <= 0
  {
  }

  class SoundObjectPool {
    const maxSize: int
    /** Whether the track prefab is saved active. */
    const prefabActive: bool
    var soundObjects: seq<SoundObject>

    ghost predicate Valid()
      reads this`soundObjects, soundObjects`isPause, soundObjects`isPlaying
    {
      NoDuplicates(soundObjects) &&
      |soundObjects| <= (if maxSize < 0 then 0 else maxSize) &&
      forall x :: x in soundObjects ==> x.Valid()
    }

    constructor (maxSize: int, prefabActive: bool)
      ensures Valid() && this.maxSize == maxSize && this.prefabActive == prefabActive && soundObjects == []
    {
      this.maxSize := maxSize;
      this.prefabActive := prefabActive;
      soundObjects := [];
    }

    /**
     * `Play(soundData, priority, polyphonySize)`: picks a track (see
     * `PickTrack`), restarts it with the sound, moves it into priority
     * order and subscribes the hide-after-stop handler. `null` stands for
     * the index exception the source runs into when there is no track to
     * take.
     */
    method Play(soundData: nat, priority: int, polyphonySize: int) returns (track: SoundObject?)
      requires Valid()
      modifies this, set x | x in soundObjects
      ensures Valid()
      ensures old(PickTrack(soundObjects, soundData, polyphonySize, maxSize)).NoTrack? <==> track == null
      ensures old(PickTrack(soundObjects, soundData, polyphonySize, maxSize)).Reuse? ==>
                track == old(soundObjects[PickTrack(soundObjects, soundData, polyphonySize, maxSize).index])
      ensures old(PickTrack(soundObjects, soundData, polyphonySize, maxSize)).Grow? ==>
                track != null && fresh(track) && track.onDestroy == [LeavePool(this)] && track.onStop == [HideInPool]
      ensures track == null ==> soundObjects == old(soundObjects)
      ensures track != null ==> Playing(track, soundData, priority)
      ensures track != null ==> multiset(soundObjects) == multiset(old(soundObjects))[track := 1]
      ensures track != null ==> SortedByPriority(soundObjects)
      ensures old(PickTrack(soundObjects, soundData, polyphonySize, maxSize)).Reuse? ==>
                track.onStop == (if old(track.isPlaying) then [] else old(track.onStop)) + [HideInPool]
      ensures track != null ==> unchanged(old(set x | x in soundObjects && x != track))
      ensures track == null ==> unchanged(old(set x | x in soundObjects))
    {
      var pick := PickTrack(soundObjects, soundData, polyphonySize, maxSize);
      match pick
      case NoTrack =>
        return null;
      case Reuse(k) =>
        track := soundObjects[k];
        PlayOn(track, soundData, priority);
      case Grow =>
        track := new SoundObject(prefabActive);
        track.onDestroy := track.onDestroy + [LeavePool(this)];
        PlayOn(track, soundData, priority);
    }

    /** From `freeSoundObject.Stop()` on: the chosen track is restarted and the list reordered. */
    method PlayOn(free: SoundObject, soundData: nat, priority: int)
      requires Valid() && free.Valid()
      requires free in soundObjects || |soundObjects| < maxSize
      modifies this`soundObjects, free
      ensures Valid() && Playing(free, soundData, priority)
      ensures free.onStop == (if old(free.isPlaying) then [] else old(free.onStop)) + [HideInPool]
      ensures free.onDestroy == old(free.onDestroy)
      ensures multiset(soundObjects) == multiset(old(soundObjects))[free := 1]
      ensures SortedByPriority(soundObjects)
    {
      ghost var rest := set x | x in soundObjects && x != free;
      Restart(free, soundData, priority);
      Reorder(free);
      Launch(free);
      assert forall x :: x in rest ==> x.Valid();
      forall x | x in soundObjects ensures x == free || x in rest {
        assert multiset(soundObjects)[x] > 0;
      }
    }

    /** `Stop` and `Init` on the chosen track. */
    method Restart(free: SoundObject, soundData: nat, priority: int)
      requires free.Valid()
      modifies free
      ensures free.Valid() && !free.isPlaying && !free.isPause
      ensures free.soundData == Some(soundData) && free.priority == priority
      ensures free.onStop == (if old(free.isPlaying) then [] else old(free.onStop))
      ensures free.onDestroy == old(free.onDestroy)
    {
      free.Stop();
      free.Init(soundData, priority);
    }

    /** `SetActive(true)`, `Play` and the hide-after-stop subscription. */
    method Launch(free: SoundObject)
      requires free.Valid() && !free.isPlaying && free.soundData.Some?
      modifies free
      ensures Playing(free, old(free.soundData).value, old(free.priority))
      ensures free.soundData == old(free.soundData) && free.priority == old(free.priority)
      ensures free.Valid() && free.isPlaying && !free.isPause && free.active
      ensures free.onStop == old(free.onStop) + [HideInPool]
      ensures free.onDestroy == old(free.onDestroy)
    {
      free.active := true;
      free.Play();
      free.onStop := free.onStop + [HideInPool];
    }

    /** `Remove`, `Add` and `Sort`: the track moves to its place in priority order. */
    method Reorder(free: SoundObject)
      requires NoDuplicates(soundObjects) && |soundObjects| <= (if maxSize < 0 then 0 else maxSize)
      requires free in soundObjects || |soundObjects| < maxSize
      modifies this`soundObjects
      ensures NoDuplicates(soundObjects) && |soundObjects| <= (if maxSize < 0 then 0 else maxSize)
      ensures multiset(soundObjects) == multiset(old(soundObjects))[free := 1]
      ensures SortedByPriority(soundObjects)
    {
      var list := RemoveFirst(soundObjects, free) + [free];
      var sorted := SortByPriority(list);
      PoolAfterPlay(soundObjects, free, list, sorted, maxSize);
      soundObjects := sorted;
    }

    /** `Stop(soundObject)`: stops a track only if it belongs to this pool. */
    method Stop(track: SoundObject)
      requires Valid()
      modifies track
      ensures Valid()
      ensures track in soundObjects ==> !track.isPlaying && !track.isPause
      ensures track !in soundObjects ==> unchanged(track)
    {
      if track in soundObjects {
        track.Stop();
      }
    }
  }

  /** After Remove, Add and Sort the chosen track occurs once and the list keeps its bound. */
  lemma {:induction false} PoolAfterPlay(old_: seq<SoundObject>, x: SoundObject, list: seq<SoundObject>,
                                         sorted: seq<SoundObject>, maxSize: int)
    requires NoDuplicates(old_) && |old_| <= (if maxSize < 0 then 0 else maxSize)
    requires x in old_ || |old_| < maxSize
    requires list == RemoveFirst(old_, x) + [x] && multiset(sorted) == multiset(list)
    ensures multiset(sorted) == multiset(old_)[x := 1]
    ensures NoDuplicates(sorted)
    ensures |sorted| <= (if maxSize < 0 then 0 else maxSize)
  {
    NoDuplicatesOnce(old_);
    if x in old_ {
      assert multiset(old_)[x] == 1;
      assert multiset(RemoveFirst(old_, x)) == multiset(old_)[x := 0];
    } else {
      assert multiset(old_)[x] == 0;
      assert multiset(old_) == multiset(old_)[x := 0];
    }
    assert multiset(list) == multiset(old_)[x := 1];
    assert |sorted| == |multiset(sorted)|;
    OnceNoDuplicates(sorted);
  }
}
