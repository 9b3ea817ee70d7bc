/**
 * The photo upload screen: three numbered slots, one per drawing category,
 * held in a JavaScript array that the screen copies and writes by index,
 * fills at its first empty element, appends to, and filters. The upload is
 * dispatched only when the array has length 3.
 */
module PhotoSlots {

  import opened Wrappers
  import opened JsValues
  import opened TaskStore

  /** The number of drawing categories, and so of slots. */
  const SlotCount := 3

  function Max(a: int, b: int): int
  {
    if a < b then b else a
  }

  /** An element as `[...prev]` copies it: a hole becomes `undefined`. */
  function Copied(x: Slot): Slot
  {
    if x.Hole? then Undefined else x
  }

  /** `[...prev]`. */
  function Spread(p: seq<Slot>): (r: seq<Slot>)
    ensures |r| == |p|
    ensures forall i :: 0 <= i < |r| ==> r[i] == Copied(p[i]) && !r[i].Hole?
  {
    seq(|p|, i requires 0 <= i < |p| => Copied(p[i]))
  }

  /** `a[i] = x`: writing past the end lengthens the array and leaves holes before `i`. */
  function WriteAt(p: seq<Slot>, i: nat, x: Slot): (r: seq<Slot>)
    ensures |r| == Max(|p|, i + 1)
    ensures r[i] == x
    ensures forall j :: 0 <= j < |p| && j != i ==> r[j] == p[j]
    ensures forall j :: |p| <= j < i ==> r[j] == Hole
  {
    if i < |p| then p[i := x] else p + seq(i - |p|, _ => Hole) + [x]
  }

  /** `p.findIndex(x => !x)`: the first element that holds no file, holes included. */
  function FirstUnfilled(p: seq<Slot>): (k: Option<nat>)
    ensures k.Some? ==> k.value < |p| && !p[k.value].Filled?
    ensures k.Some? ==> forall j :: 0 <= j < k.value ==> p[j].Filled?
    ensures k.None? ==> forall j :: 0 <= j < |p| ==> p[j].Filled?
  {
    if p == [] then None
    else if !p[0].Filled? then Some(0)
    else match FirstUnfilled(p[1..])
      case Some(k) => Some(k + 1)
      case None => None
  }

  lemma FirstUnfilledOfSpread(p: seq<Slot>)
    ensures FirstUnfilled(Spread(p)) == FirstUnfilled(p)
  {
    var q := Spread(p);
    if FirstUnfilled(p).Some? {
      var k := FirstUnfilled(p).value;
      assert !q[k].Filled? && forall j :: 0 <= j < k ==> q[j].Filled?;
      if FirstUnfilled(q).Some? {
        var k' := FirstUnfilled(q).value;
        assert !(k' < k) && !(k < k');
      }
    }
  }

  /**
   * The update `handleFileSelect` applies to the slots once it has an image
   * file: copy the array, then write the given slot, or else the first empty
   * slot, or else append while there are fewer than three.
   */
  function SelectFile(prev: seq<Slot>, file: File, index: Option<nat>): (r: seq<Slot>)
    ensures index.Some? ==> |r| == Max(|prev|, index.value + 1) && r[index.value] == Filled(file)
    ensures index.Some? ==> forall j :: 0 <= j < |prev| && j != index.value ==> r[j] == Copied(prev[j])
    ensures index.Some? ==> forall j :: |prev| <= j < index.value ==> r[j] == Hole
    ensures index.None? && FirstUnfilled(prev).Some? ==>
              var k := FirstUnfilled(prev).value;
              |r| == |prev| && r[k] == Filled(file) &&
              forall j :: 0 <= j < |prev| && j != k ==> r[j] == Copied(prev[j])
    ensures index.None? && FirstUnfilled(prev).None? ==>
              r == if |prev| < SlotCount then prev + [Filled(file)] else prev
    ensures |prev| <= SlotCount && (index.None? || index.value < SlotCount) ==> |r| <= SlotCount
  {
    var copy := Spread(prev);
    FirstUnfilledOfSpread(prev);
    if index.Some? then
      WriteAt(copy, index.value, Filled(file))
    else
      match FirstUnfilled(copy)
      case Some(k) => copy[k := Filled(file)]
      case None =>
        assert copy == prev;
        if |copy| < SlotCount then copy + [Filled(file)] else copy
  }

  /** `file.type.startsWith('image/')`. */
  predicate IsImage(f: File)
  {
    "image/" <= f.mimeType
  }

  /** Drops the holes: what `filter` does with elements it never visits. */
  function Compact(p: seq<Slot>): seq<Slot>
  {
    if p == [] then [] else (if p[0].Hole? then [] else [p[0]]) + Compact(p[1..])
  }

  /** `p.filter((_, i) => i !== index)`: drops the element at `index` and every hole. */
  function Removed(p: seq<Slot>, index: int): (r: seq<Slot>)
    ensures |r| <= |p|
    ensures forall k :: 0 <= k < |r| ==> !r[k].Hole?
    decreases |p|
  {
    if p == [] then []
    else (if index == 0 || p[0].Hole? then [] else [p[0]]) + Removed(p[1..], index - 1)
  }

  /**
   * Removing slot `i` keeps every other element in its relative order, drops
   * the holes, and moves the elements after `i` one place to the left.
   */
  lemma {:induction false} RemovedSplits(p: seq<Slot>, i: int)
    requires 0 <= i < |p|
    ensures Removed(p, i) == Compact(p[..i]) + Compact(p[i + 1..])
    decreases |p|
  {
    var q := p[1..];
    if i == 0 {
      RemovedOutOfRange(q, -1);
      assert p[..0] == [] && q == p[i + 1..];
    } else {
      var head := if p[0].Hole? then [] else [p[0]];
      RemovedSplits(q, i - 1);
      assert q[..i - 1] == p[1..i] && q[i..] == p[i + 1..];
      var a, b := Compact(p[1..i]), Compact(p[i + 1..]);
      assert Removed(q, i - 1) == a + b;
      assert Removed(p, i) == head + (a + b);
      CompactHead(p[0], p[1..i]);
      assert [p[0]] + p[1..i] == p[..i];
      assert Compact(p[..i]) == head + a;
      ConcatAssoc(head, a, b);
    }
  }

  /** `Compact` of a sequence with a known first element. */
  lemma CompactHead(x: Slot, rest: seq<Slot>)
    ensures Compact([x] + rest) == (if x.Hole? then [] else [x]) + Compact(rest)
  {
    assert ([x] + rest)[0] == x && ([x] + rest)[1..] == rest;
  }

  /** With an index outside the array, `filter` only drops the holes. */
  lemma {:induction false} RemovedOutOfRange(p: seq<Slot>, i: int)
    requires i < 0 || i >= |p|
    ensures Removed(p, i) == Compact(p)
    decreases |p|
  {
    if p != [] {
      RemovedOutOfRange(p[1..], i - 1);
    }
  }

  lemma {:induction false} CompactWithoutHoles(p: seq<Slot>)
    requires forall j :: 0 <= j < |p| ==> !p[j].Hole?
    ensures Compact(p) == p
    decreases |p|
  {
    if p != [] {
      CompactWithoutHoles(p[1..]);
    }
  }

  /** On an array without holes, removing slot `i` leaves exactly the other elements, in order. */
  lemma RemovedWithoutHoles(p: seq<Slot>, i: int)
    requires 0 <= i < |p|
    requires forall j :: 0 <= j < |p| ==> !p[j].Hole?
    ensures Removed(p, i) == p[..i] + p[i + 1..]
    ensures |Removed(p, i)| == |p| - 1
  {
    RemovedSplits(p, i);
    CompactWithoutHoles(p[..i]);
    CompactWithoutHoles(p[i + 1..]);
  }

  /** `isComplete`. */
  predicate IsComplete(p: seq<Slot>)
  {
    |p| == SlotCount
  }

  /**
   * `uploading` as the slot controls see it: while an upload is in flight each
   * box's remove button and file input are disabled. A drop on a box has no
   * such guard.
   */
  predicate SlotControlsEnabled(uploadStatus: PhaseStatus)
  {
    uploadStatus != Loading
  }

  /**
   * Pressing the enabled upload button starts the upload, which disables the
   * button itself, the remove buttons and the file inputs. The upload settling
   * either way enables the slot controls again.
   */
  lemma UploadLocksControls(p: seq<Slot>, s: TaskState, t: string, photos: seq<Slot>, m: string)
    ensures UploadButtonEnabled(p, s.uploadStatus) <==> |p| == SlotCount && SlotControlsEnabled(s.uploadStatus)
    ensures var u := Reduce(s, UploadPending).uploadStatus;
            !UploadButtonEnabled(p, u) && !SlotControlsEnabled(u)
    ensures SlotControlsEnabled(Reduce(s, UploadFulfilled(t, photos)).uploadStatus)
    ensures SlotControlsEnabled(Reduce(s, UploadRejected(m)).uploadStatus)
  {
  }

  /** The upload button: enabled when the slots are complete and no upload is in flight. */
  predicate UploadButtonEnabled(p: seq<Slot>, uploadStatus: PhaseStatus)
  {
    IsComplete(p) && uploadStatus != Loading
  }

  /** The number of slots that hold a file. */
  function FilledCount(p: seq<Slot>): nat
  {
    if p == [] then 0 else (if p[0].Filled? then 1 else 0) + FilledCount(p[1..])
  }

  lemma {:induction false} FilledCountBound(p: seq<Slot>)
    ensures FilledCount(p) <= |p|
    ensures FilledCount(p) == |p| <==> forall j :: 0 <= j < |p| ==> p[j].Filled?
    decreases |p|
  {
    if p != [] {
      FilledCountBound(p[1..]);
      if FilledCount(p) == |p| {
        forall j | 0 <= j < |p| ensures p[j].Filled? {
          if j > 0 { assert p[j] == p[1..][j - 1]; }
        }
      }
      if forall j :: 0 <= j < |p| ==> p[j].Filled? {
        assert forall j :: 0 <= j < |p| - 1 ==> p[1..][j] == p[j + 1];
      }
    }
  }

  /**
   * As written, `isComplete` counts the length, not the files: choosing a
   * file for the third slot of an empty screen yields a complete array that
   * holds a single file, and the upload button is enabled.
   */
  lemma SparseSelectionCompletes(f: File)
    ensures SelectFile([], f, Some(2)) == [Hole, Hole, Filled(f)]
    ensures IsComplete(SelectFile([], f, Some(2)))
    ensures UploadButtonEnabled(SelectFile([], f, Some(2)), Idle)
    ensures FilledCount(SelectFile([], f, Some(2))) == 1
  {
    var r := SelectFile([], f, Some(2));
    assert r == [Hole, Hole, Filled(f)];
    assert r[1..] == [Hole, Filled(f)] && r[1..][1..] == [Filled(f)] && r[1..][1..][1..] == [];
    assert FilledCount([Filled(f)]) == 1;
    assert FilledCount([Hole, Filled(f)]) == 1;
  }

  /** The completeness the upload evidently intends: each of the three slots holds a file. */
  predicate AllFilled(p: seq<Slot>)
  {
    |p| == SlotCount && forall j :: 0 <= j < |p| ==> p[j].Filled?
  }

  /** All three slots are filled exactly when the array is complete and holds three files. */
  lemma AllFilledIsThreeFiles(p: seq<Slot>)
    ensures AllFilled(p) <==> IsComplete(p) && FilledCount(p) == SlotCount
  {
    FilledCountBound(p);
  }

  /** Filling the three slots by their indices, from any screen state, fills them all. */
  lemma FillingEachSlotCompletes(prev: seq<Slot>, a: File, b: File, c: File)
    requires |prev| <= SlotCount
    ensures AllFilled(SelectFile(SelectFile(SelectFile(prev, a, Some(0)), b, Some(1)), c, Some(2)))
  {
  }

  /**
   * As written, removing a photo shifts the later ones down a slot: removing
   * the first of three drawings moves the second into the first category.
   */
  lemma RemovalShiftsSlots(a: File, b: File, c: File)
    ensures Removed([Filled(a), Filled(b), Filled(c)], 0) == [Filled(b), Filled(c)]
  {
    var p := [Filled(a), Filled(b), Filled(c)];
    assert p[1..] == [Filled(b), Filled(c)] && p[1..][1..] == [Filled(c)] && p[1..][1..][1..] == [];
    assert Removed([Filled(c)], -2) == [Filled(c)];
    assert Removed([Filled(b), Filled(c)], -1) == [Filled(b), Filled(c)];
  }

  /** Removal as slots are evidently meant to work: empty slot `i` in place. */
  function ClearSlot(p: seq<Slot>, i: nat): (r: seq<Slot>)
    requires i < |p|
    ensures |r| == |p| && r[i] == Undefined
    ensures forall j :: 0 <= j < |p| && j != i ==> r[j] == p[j]
  {
    p[i := Undefined]
  }

  /**
   * A slot cleared in place shows an empty box again, and a file chosen
   * through that box's input (which passes the box's index) refills it. It
   * is also the slot the index-less fallback of `handleFileSelect` would fill
   * next, so every other drawing stays in its category either way.
   */
  lemma ClearedSlotIsRefilledInPlace(p: seq<Slot>, i: nat, f: File)
    requires AllFilled(p) && i < |p|
    ensures SelectFile(ClearSlot(p, i), f, Some(i)) == p[i := Filled(f)]
    ensures SelectFile(ClearSlot(p, i), f, None) == p[i := Filled(f)]
  {
    var q := ClearSlot(p, i);
    assert !q[i].Filled?;
    assert FirstUnfilled(q).Some?;
    var k := FirstUnfilled(q).value;
    assert !(k < i) && !(k > i);
  }

  /**
   * Three files chosen for the three categories enable the upload; removing
   * the second disables it and shifts the third drawing into the second box,
   * so the only empty box left is the third; choosing a file through that
   * box's input re-enables the upload, the new file landing in the last slot.
   */
  lemma RemoveAndRefill(a: File, b: File, c: File, d: File)
    ensures var p := SelectFile(SelectFile(SelectFile([], a, Some(0)), b, Some(1)), c, Some(2));
            p == [Filled(a), Filled(b), Filled(c)] &&
            UploadButtonEnabled(p, Idle) &&
            !UploadButtonEnabled(Removed(p, 1), Idle) &&
            Removed(p, 1) == [Filled(a), Filled(c)] &&
            SelectFile(Removed(p, 1), d, Some(2)) == [Filled(a), Filled(c), Filled(d)] &&
            UploadButtonEnabled(SelectFile(Removed(p, 1), d, Some(2)), Idle)
  {
    var p := SelectFile(SelectFile(SelectFile([], a, Some(0)), b, Some(1)), c, Some(2));
    assert p == [Filled(a), Filled(b), Filled(c)];
    RemovedWithoutHoles(p, 1);
    assert Removed(p, 1) == [Filled(a), Filled(c)];
  }

  /** The screen's local state: the slots, and the store it dispatches the upload to. */
  class PhotoUploadScreen {
    var photos: seq<Slot>
    const store: Store

    constructor (store: Store)
      ensures photos == [] && this.store == store
    {
      photos := [];
      this.store := store;
    }

    /** `handleFileSelect(files, index)`: a null list, an empty one or a non-image file changes nothing. */
    method HandleFileSelect(files: Option<seq<File>>, index: Option<nat>)
      modifies this
      ensures if files.Some? && files.value != [] && IsImage(files.value[0])
              then photos == SelectFile(old(photos), files.value[0], index)
              else photos == old(photos)
    {
      if files.None? {
        return;
      }
      if files.value != [] && IsImage(files.value[0]) {
        photos := SelectFile(photos, files.value[0], index);
      }
    }

    /** `removePhoto(index)`. */
    method RemovePhoto(index: int)
      modifies this
      ensures photos == Removed(old(photos), index)
    {
      photos := Removed(photos, index);
    }

    /** `handleUpload`: starts the upload only when the array has length 3. */
    method HandleUpload() returns (started: seq<Request>)
      modifies store
      ensures started == if IsComplete(photos) then [UploadPhotos(photos)] else []
      ensures store.State() == if IsComplete(photos) then Reduce(old(store.State()), UploadPending)
                               else old(store.State())
    {
      started := [];
      if |photos| != SlotCount {
        return;
      }
      store.UploadPending();
      started := [UploadPhotos(photos)];
    }
  }
}
