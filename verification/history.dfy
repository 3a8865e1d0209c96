/** The delivery log: a JSON array in one file, capped at the newest 50 entries,
    read back as the newest 10, newest first. */
module History {
  import opened Wrappers
  import opened Slices
  import opened Json

  const Capacity: nat := 50
  const ViewSize: nat := 10

  /** What reading the history file yields: no file, a file that cannot be read or
      is not valid JSON, or the JSON value it holds (an array when the model wrote it). */
  datatype HistoryFile = Absent | Corrupt | Stored(content: Json)

  /** Push one entry and keep only the newest `Capacity`. */
  function Append<E>(h: seq<E>, e: E): (r: seq<E>)
    ensures |r| == Min(|h| + 1, Capacity)
    ensures r == (h + [e])[|h| + 1 - |r|..]
    ensures r[|r| - 1] == e
  {
    var pushed := h + [e];
    if |pushed| > Capacity then TakeLast(pushed, Capacity) else pushed
  }

  /** The newest `ViewSize` entries, newest first. */
  function View<E>(h: seq<E>): (r: seq<E>)
    ensures |r| == Min(|h|, ViewSize)
    ensures forall i :: 0 <= i < |r| ==> r[i] == h[|h| - 1 - i]
  {
    Reverse(TakeLast(h, ViewSize))
  }

  /** The array the append path starts from. A missing or unreadable file starts
      an empty log; a JSON value that is not an array has no `push`, so the
      append fails and `None` says so. */
  function Load(f: HistoryFile): (r: Option<seq<Json>>)
    ensures (f.Absent? || f.Corrupt?) ==> r == Some([])
    ensures f.Stored? ==> (r.Some? <==> f.content.JArr?)
    ensures f.Stored? && f.content.JArr? ==> r == Some(f.content.items)
  {
    match f
    case Absent => Some([])
    case Corrupt => Some([])
    case Stored(JArr(items)) => Some(items)
    case Stored(_) => None
  }

  /** Record one entry. A failed append or a failed write is logged and swallowed,
      leaving the file as it was; otherwise the trimmed array is written back. */
  function Save(f: HistoryFile, entry: Json, writeOk: bool): (r: HistoryFile)
    ensures !writeOk || Load(f).None? ==> r == f
    ensures writeOk && Load(f).Some? ==> Load(r) == Some(Append(Load(f).value, entry))
  {
    match Load(f)
    case None => f
    case Some(h) => if writeOk then Stored(JArr(Append(h, entry))) else f
  }

  /** The `/history` read path: the newest ten, newest first, and an empty list
      whenever the file is missing, unreadable or not an array. */
  function Recent(f: HistoryFile): (r: seq<Json>)
    ensures f.Stored? && f.content.JArr? ==>
      |r| == Min(|f.content.items|, ViewSize) &&
      forall i :: 0 <= i < |r| ==> r[i] == f.content.items[|f.content.items| - 1 - i]
    ensures !(f.Stored? && f.content.JArr?) ==> r == []
  {
    match f
    case Stored(JArr(items)) => View(items)
    case _ => []
  }

  /** The read path sees exactly the array the append path would start from. */
  lemma RecentSeesLoad(f: HistoryFile, h: seq<Json>)
    requires Load(f) == Some(h)
    ensures Recent(f) == View(h)
  {
  }

  /** The log after appending `es` in order, oldest first. */
  function AppendEach<E>(h: seq<E>, es: seq<E>): (r: seq<E>)
    decreases |es|
  {
    if es == [] then h else Append(AppendEach(h, es[..|es| - 1]), es[|es| - 1])
  }

  /** One append keeps the newest `Capacity` of the extended log. */
  lemma AppendIsTakeLast<E>(h: seq<E>, e: E)
    ensures Append(h, e) == TakeLast(h + [e], Capacity)
  {
  }

  /** After at least one append the log is the newest `Capacity` entries of
      everything ever appended, in order. */
  lemma {:induction false} AppendEachKeepsNewest<E>(h: seq<E>, es: seq<E>)
    requires es != []
    ensures AppendEach(h, es) == TakeLast(h + es, Capacity)
  {
    var init, e := es[..|es| - 1], es[|es| - 1];
    assert es == init + [e];
    assert h + es == h + init + [e];
    AppendIsTakeLast(AppendEach(h, init), e);
    if init != [] {
      AppendEachKeepsNewest(h, init);
      TakeLastAbsorbs(h + init, [e], Capacity);
    }
  }

  /** Starting from an empty log, `n` appends leave `min(n, 50)` entries, and the
      read view lists the last `min(n, 10)` of them, newest first. */
  lemma {:induction false} AppendEachBounds<E>(es: seq<E>)
    ensures |AppendEach([], es)| == Min(|es|, Capacity)
    ensures |View(AppendEach([], es))| == Min(|es|, ViewSize)
    ensures forall i :: 0 <= i < Min(|es|, ViewSize) ==> View(AppendEach([], es))[i] == es[|es| - 1 - i]
  {
    var t := AppendEach([], es);
    if es == [] {
      assert t == [];
    } else {
      AppendEachKeepsNewest([], es);
      assert [] + es == es;
      ViewOfWindow(es, t);
    }
  }

  lemma ViewOfWindow<E>(es: seq<E>, t: seq<E>)
    requires t == TakeLast(es, Capacity)
    ensures |View(t)| == Min(|es|, ViewSize)
    ensures forall i :: 0 <= i < |View(t)| ==> View(t)[i] == es[|es| - 1 - i]
  {
  }
}
