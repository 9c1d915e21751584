/** Which installed application a StartupWMClass names: the index that one pass over all of them builds. */
module StartupWmClass {
  import opened Options

  /** An installed application; its id is its own. */
  datatype AppInfo = AppInfo(id: string, startupWmClass: Option<string>, shouldShow: bool)

  const SUFFIX := ".desktop"

  predicate UniqueIds(infos: seq<AppInfo>) {
    forall i, j | 0 <= i < j < |infos| :: infos[i].id != infos[j].id
  }

  /** The id is the class, up to the suffix. */
  predicate IsExactMatch(id: string, wmClass: string)
    ensures IsExactMatch(id, wmClass) <==> id == wmClass || id == wmClass + SUFFIX
  {
    if !(wmClass <= id) then false
    else if |id| == |wmClass| then true
    else
      assert id == wmClass + id[|wmClass|..];
      id[|wmClass|..] == SUFFIX
  }

  // ---------------------------------------------------------------- the choice

  predicate Names(infos: seq<AppInfo>, wmClass: string, i: nat) {
    i < |infos| && infos[i].startupWmClass == Some(wmClass)
  }

  predicate Exact(infos: seq<AppInfo>, wmClass: string, i: nat) {
    Names(infos, wmClass, i) && IsExactMatch(infos[i].id, wmClass)
  }

  predicate Shown(infos: seq<AppInfo>, wmClass: string, i: nat) {
    Names(infos, wmClass, i) && infos[i].shouldShow
  }

  /** The last exact match or, without one, the first application with this class. */
  ghost predicate Preferred(infos: seq<AppInfo>, wmClass: string, base: nat) {
    if Exact(infos, wmClass, base) then forall i: nat | base < i :: !Exact(infos, wmClass, i)
    else
      && Names(infos, wmClass, base)
      && (forall i: nat :: !Exact(infos, wmClass, i))
      && (forall i: nat | i < base :: !Names(infos, wmClass, i))
  }

  /** The first shown application from the preferred one on; the preferred one if none is shown. */
  ghost predicate Chosen(infos: seq<AppInfo>, wmClass: string, w: nat) {
    exists base: nat :: Preferred(infos, wmClass, base) && FirstShownFrom(infos, wmClass, base, w)
  }

  ghost predicate FirstShownFrom(infos: seq<AppInfo>, wmClass: string, base: nat, w: nat) {
    if Shown(infos, wmClass, w) then base <= w && forall i: nat | base <= i < w :: !Shown(infos, wmClass, i)
    else w == base && forall i: nat | base <= i :: !Shown(infos, wmClass, i)
  }

  lemma ChoiceIsUnique(infos: seq<AppInfo>, wmClass: string, w1: nat, w2: nat)
    requires Chosen(infos, wmClass, w1) && Chosen(infos, wmClass, w2)
    ensures w1 == w2
  {
    hide IsExactMatch;
    var b1: nat :| Preferred(infos, wmClass, b1) && FirstShownFrom(infos, wmClass, b1, w1);
    var b2: nat :| Preferred(infos, wmClass, b2) && FirstShownFrom(infos, wmClass, b2, w2);
    assert Names(infos, wmClass, b1) && Names(infos, wmClass, b2);
    assert b1 == b2;
  }

  // ---------------------------------------------------------------- the scan

  /** What the entry of a class becomes when the next application is seen. */
  function Update(infos: seq<AppInfo>, present: Option<nat>, i: nat): Option<nat>
    requires i < |infos| && infos[i].startupWmClass.Some? && (present.Some? ==> present.value < i)
  {
    if present == None || IsExactMatch(infos[i].id, infos[i].startupWmClass.value)
       || (infos[i].shouldShow && !infos[present.value].shouldShow)
    then Some(i)
    else present
  }

  function Winner(infos: seq<AppInfo>, wmClass: string): (w: Option<nat>)
    ensures w.Some? ==> Names(infos, wmClass, w.value)
  {
    if infos == [] then None
    else
      var n := |infos| - 1;
      var w := Winner(infos[..n], wmClass);
      if infos[n].startupWmClass == Some(wmClass) then Update(infos, w, n) else w
  }

  /** Seeing one more application turns the right choice into the right choice. */
  lemma OneMore(infos: seq<AppInfo>, wmClass: string, w: nat)
    requires infos != [] && Chosen(infos[..|infos| - 1], wmClass, w) && Names(infos[..|infos| - 1], wmClass, w)
    ensures var n := |infos| - 1;
            var w' := if Names(infos, wmClass, n) then Update(infos, Some(w), n).value else w;
            Chosen(infos, wmClass, w')
  {
    hide IsExactMatch;
    var n := |infos| - 1;
    var before := infos[..n];
    assert forall i: nat | i < n :: infos[i] == before[i];
    forall i: nat | i < n
      ensures Exact(infos, wmClass, i) <==> Exact(before, wmClass, i)
      ensures Names(infos, wmClass, i) <==> Names(before, wmClass, i)
      ensures Shown(infos, wmClass, i) <==> Shown(before, wmClass, i)
    {
    }
    var base: nat :| Preferred(before, wmClass, base) && FirstShownFrom(before, wmClass, base, w);
    if Exact(infos, wmClass, n) {
      assert Preferred(infos, wmClass, n) && FirstShownFrom(infos, wmClass, n, n);
    } else {
      assert base < n;
      assert Preferred(infos, wmClass, base);
      if Names(infos, wmClass, n) && infos[n].shouldShow && !infos[w].shouldShow {
        assert FirstShownFrom(infos, wmClass, base, n);
      } else {
        assert FirstShownFrom(infos, wmClass, base, w);
      }
    }
  }

  lemma {:induction false} WinnerIsChosen(infos: seq<AppInfo>, wmClass: string)
    ensures var w := Winner(infos, wmClass);
            if w.Some? then Chosen(infos, wmClass, w.value) else forall i: nat :: !Names(infos, wmClass, i)
  {
    hide IsExactMatch, Chosen;
    if infos != [] {
      var n := |infos| - 1;
      var before := infos[..n];
      WinnerIsChosen(before, wmClass);
      var w := Winner(before, wmClass);
      if w.Some? {
        OneMore(infos, wmClass, w.value);
      } else {
        assert forall i: nat | i < n :: !Names(before, wmClass, i) ==> !Names(infos, wmClass, i);
        if Names(infos, wmClass, n) {
          FirstIsChosen(infos, wmClass);
        }
      }
    }
  }

  lemma FirstIsChosen(infos: seq<AppInfo>, wmClass: string)
    requires infos != [] && Names(infos, wmClass, |infos| - 1)
    requires forall i: nat | i < |infos| - 1 :: !Names(infos, wmClass, i)
    ensures Chosen(infos, wmClass, |infos| - 1)
  {
    hide IsExactMatch;
    var n := |infos| - 1;
    assert Preferred(infos, wmClass, n) && FirstShownFrom(infos, wmClass, n, n);
  }

  /** The ids of the hidden applications that name a class. */
  function NoShowIds(infos: seq<AppInfo>): seq<string> {
    if infos == [] then []
    else
      var info := infos[|infos| - 1];
      NoShowIds(infos[..|infos| - 1]) + if info.startupWmClass.Some? && !info.shouldShow then [info.id] else []
  }

  lemma {:induction false} NoShowIdsAreHidden(infos: seq<AppInfo>, k: nat)
    requires UniqueIds(infos) && k < |infos| && infos[k].startupWmClass.Some?
    ensures infos[k].id in NoShowIds(infos) <==> !infos[k].shouldShow
  {
    var n := |infos| - 1;
    if k < n {
      NoShowIdsAreHidden(infos[..n], k);
    } else {
      NoShowIdsAreListed(infos[..n], infos[k].id);
    }
  }

  lemma {:induction false} NoShowIdsAreListed(infos: seq<AppInfo>, id: string)
    ensures id in NoShowIds(infos) ==> exists i :: 0 <= i < |infos| && infos[i].id == id
  {
    if infos != [] {
      var n := |infos| - 1;
      if id in NoShowIds(infos) && infos[n].id != id {
        NoShowIdsAreListed(infos[..n], id);
        var i :| 0 <= i < n && infos[..n][i].id == id;
        assert infos[i].id == id;
      }
    }
  }

  /** The index after the next application, when the ids in `noShowIds` are known to be hidden. */
  function Enter(m: map<string, string>, noShowIds: seq<string>, info: AppInfo): map<string, string> {
    if info.startupWmClass == None then m
    else
      var wmClass := info.startupWmClass.value;
      if wmClass in m && !IsExactMatch(info.id, wmClass) && !(info.shouldShow && m[wmClass] in noShowIds) then m
      else m[wmClass := info.id]
  }

  function Index(infos: seq<AppInfo>): map<string, string> {
    if infos == [] then map[]
    else Enter(Index(infos[..|infos| - 1]), NoShowIds(infos), infos[|infos| - 1])
  }

  lemma {:induction false} IndexHoldsWinners(infos: seq<AppInfo>, wmClass: string)
    requires UniqueIds(infos)
    ensures var w := Winner(infos, wmClass);
            if w == None then wmClass !in Index(infos)
            else wmClass in Index(infos) && Index(infos)[wmClass] == infos[w.value].id
  {
    hide IsExactMatch;
    if infos != [] {
      var n := |infos| - 1;
      IndexHoldsWinners(infos[..n], wmClass);
      var w := Winner(infos[..n], wmClass);
      if w.Some? {
        NoShowIdsAreHidden(infos, w.value);
      }
    }
  }

  /**
   The index holds exactly the classes that some application names; each leads to the id of the one chosen:
   the last exact match or, without one, the first with this class, unless that one is hidden and a shown one follows.
  */
  lemma IndexIsTheChoice(infos: seq<AppInfo>, wmClass: string, id: string)
    requires UniqueIds(infos)
    ensures (wmClass in Index(infos) && Index(infos)[wmClass] == id)
            <==> exists w: nat :: w < |infos| && Chosen(infos, wmClass, w) && infos[w].id == id
    ensures wmClass in Index(infos) <==> exists i: nat :: Names(infos, wmClass, i)
  {
    hide IsExactMatch, Index;
    IndexHoldsWinners(infos, wmClass);
    WinnerIsChosen(infos, wmClass);
    var best := Winner(infos, wmClass);
    forall w: nat | w < |infos| && Chosen(infos, wmClass, w)
      ensures best == Some(w)
    {
      if best.Some? {
        ChoiceIsUnique(infos, wmClass, w, best.value);
      }
    }
  }

  class AppSystem {
    var startupWmClassToId: map<string, string>

    constructor ()
      ensures startupWmClassToId == map[]
    {
      startupWmClassToId := map[];
    }

    method ScanStartupWmClassToId(infos: seq<AppInfo>)
      modifies this
      ensures startupWmClassToId == Index(infos)
    {
      hide IsExactMatch;
      startupWmClassToId := map[];
      var noShowIds: seq<string> := [];
      var i := 0;
      while i < |infos|
        invariant 0 <= i <= |infos|
        invariant noShowIds == NoShowIds(infos[..i]) && startupWmClassToId == Index(infos[..i])
      {
        var info := infos[i];
        assert infos[..i + 1][..i] == infos[..i];
        if info.startupWmClass.Some? {
          var wmClass := info.startupWmClass.value;
          if !info.shouldShow {
            noShowIds := noShowIds + [info.id];
          }
          var oldId := if wmClass in startupWmClassToId then Some(startupWmClassToId[wmClass]) else None;
          if oldId.Some? && IsExactMatch(info.id, wmClass) {
            oldId := None;
          }
          if oldId.Some? && info.shouldShow && oldId.value in noShowIds {
            oldId := None;
          }
          if oldId == None {
            startupWmClassToId := startupWmClassToId[wmClass := info.id];
          }
        }
        i := i + 1;
      }
      assert infos[..i] == infos;
    }

    method LookupStartupWmClass(wmClass: string, ghost infos: seq<AppInfo>) returns (id: Option<string>)
      requires UniqueIds(infos) && startupWmClassToId == Index(infos)
      ensures id == None <==> forall i: nat :: !Names(infos, wmClass, i)
      ensures id.Some? ==> exists w: nat :: w < |infos| && Chosen(infos, wmClass, w) && infos[w].id == id.value
    {
      hide Index, Chosen, Names;
      id := if wmClass in startupWmClassToId then Some(startupWmClassToId[wmClass]) else None;
      IndexIsTheChoice(infos, wmClass, if id.Some? then id.value else "");
    }
  }
}
