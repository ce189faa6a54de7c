/** Window icon selection on Windows (`load_icon_handles`): the icons of
    the app details' icon set that load are sorted by width, widest first,
    and for each of the small and the large icon the pick is the last one
    in that order meeting both system-metric thresholds, or the widest icon
    when none does. Loading a bitmap, the system metrics and turning the
    pick into an icon handle are foreign; they are parameters or left out. */
module Icons {
  import opened Wrappers

  /** The result of loading one icon file. */
  datatype Loaded = Bitmap(width: nat, height: nat) | LoadFailed

  /** A loaded icon, with the icon-set slot it came from. */
  datatype Icon = Icon(slot: nat, width: nat, height: nat)

  /** The system metrics for small and for large icons. */
  datatype Metrics = Metrics(smallWidth: int, smallHeight: int, largeWidth: int, largeHeight: int)

  predicate Fits(icon: Icon, width: int, height: int)
  {
    icon.width >= width && icon.height >= height
  }

  predicate Descending(icons: seq<Icon>)
  {
    forall i, j :: 0 <= i < j < |icons| ==> icons[i].width >= icons[j].width
  }

  /** The icons that load, in slot order: a slot that is set and whose file
      loads gives one icon. */
  function Loadable(slots: seq<Option<string>>, load: string -> Loaded): seq<Icon>
  {
    if |slots| == 0 then []
    else
      var i := |slots| - 1;
      Loadable(slots[..i], load) +
      (if slots[i].Some? && load(slots[i].value).Bitmap?
       then [Icon(i, load(slots[i].value).width, load(slots[i].value).height)] else [])
  }

  /** The loop over the icon set. */
  method LoadIcons(slots: seq<Option<string>>, load: string -> Loaded) returns (icons: seq<Icon>)
    ensures icons == Loadable(slots, load)
  {
    icons := [];
    for i := 0 to |slots|
      invariant icons == Loadable(slots[..i], load)
    {
      assert slots[..i + 1][..i] == slots[..i];
      match slots[i] {
        case None =>
        case Some(path) =>
          match load(path) {
            case LoadFailed =>
            case Bitmap(width, height) => icons := icons + [Icon(i, width, height)];
          }
      }
    }
    assert slots[..|slots|] == slots;
  }

  /** Exactly the slots that are set and load give an icon, each once, in
      slot order, with the loaded size. */
  lemma {:induction false} LoadableExactly(slots: seq<Option<string>>, load: string -> Loaded)
    ensures forall k :: 0 <= k < |Loadable(slots, load)| ==>
      var icon := Loadable(slots, load)[k];
      && icon.slot < |slots| && slots[icon.slot].Some?
      && load(slots[icon.slot].value) == Bitmap(icon.width, icon.height)
    ensures forall k, l :: 0 <= k < l < |Loadable(slots, load)| ==>
      Loadable(slots, load)[k].slot < Loadable(slots, load)[l].slot
    ensures forall i :: 0 <= i < |slots| && slots[i].Some? && load(slots[i].value).Bitmap? ==>
      Icon(i, load(slots[i].value).width, load(slots[i].value).height) in Loadable(slots, load)
  {
    if |slots| > 0 {
      var n := |slots| - 1;
      var front := slots[..n];
      LoadableExactly(front, load);
      forall i | 0 <= i < n ensures slots[i] == front[i] {
      }
    }
  }

  /** Inserts an icon before the first strictly narrower one. */
  function InsertByWidth(x: Icon, s: seq<Icon>): (r: seq<Icon>)
    ensures |r| == |s| + 1 && multiset(r) == multiset(s) + multiset{x}
  {
    if |s| == 0 then [x]
    else if s[0].width < x.width then [x] + s
    else
      assert s == [s[0]] + s[1..];
      [s[0]] + InsertByWidth(x, s[1..])
  }

  /** Insertion keeps the order widest first. */
  lemma {:induction false} InsertKeepsDescending(x: Icon, s: seq<Icon>)
    requires Descending(s)
    ensures Descending(InsertByWidth(x, s))
  {
    if |s| > 0 && s[0].width >= x.width {
      var rest := InsertByWidth(x, s[1..]);
      InsertKeepsDescending(x, s[1..]);
      forall i | 0 <= i < |rest| ensures rest[i].width <= s[0].width {
        assert rest[i] in multiset(rest);
        if rest[i] != x {
          assert rest[i] in multiset(s[1..]);
          var j :| 0 <= j < |s[1..]| && s[1..][j] == rest[i];
          assert s[1..][j] == s[j + 1];
        }
      }
      var r := [s[0]] + rest;
      forall i, j | 0 <= i < j < |r| ensures r[i].width >= r[j].width {
        if i > 0 {
          assert r[i] == rest[i - 1] && r[j] == rest[j - 1];
        }
      }
    }
  }

  /** The sort by width, widest first. The order of icons of equal width
      is not fixed by the sort that the nucleus uses; what follows holds for
      any order it may give. */
  function SortByWidth(icons: seq<Icon>): (r: seq<Icon>)
    ensures Descending(r) && multiset(r) == multiset(icons) && |r| == |icons|
  {
    if |icons| == 0 then []
    else
      assert icons == [icons[0]] + icons[1..];
      InsertKeepsDescending(icons[0], SortByWidth(icons[1..]));
      InsertByWidth(icons[0], SortByWidth(icons[1..]))
  }

  /** The index of the last icon meeting the thresholds, if any. */
  function LastFit(icons: seq<Icon>, width: int, height: int): (r: Option<nat>)
    ensures r.Some? ==> r.value < |icons| && Fits(icons[r.value], width, height)
    ensures r.Some? ==> forall j :: r.value < j < |icons| ==> !Fits(icons[j], width, height)
    ensures r.None? ==> forall j :: 0 <= j < |icons| ==> !Fits(icons[j], width, height)
  {
    if |icons| == 0 then None
    else if Fits(icons[|icons| - 1], width, height) then Some(|icons| - 1)
    else LastFit(icons[..|icons| - 1], width, height)
  }

  /** The pick for one pair of thresholds. */
  function Pick(icons: seq<Icon>, width: int, height: int): Icon
    requires |icons| > 0
  {
    match LastFit(icons, width, height)
    case Some(k) => icons[k]
    case None => icons[0]
  }

  /** The selection loop, for the small and the large icon at once. */
  method PickIcons(icons: seq<Icon>, m: Metrics) returns (small: Icon, large: Icon)
    requires |icons| > 0
    ensures small == Pick(icons, m.smallWidth, m.smallHeight)
    ensures large == Pick(icons, m.largeWidth, m.largeHeight)
  {
    small := icons[0];
    large := icons[0];
    for i := 0 to |icons|
      invariant small == Pick(icons[..if i == 0 then 1 else i], m.smallWidth, m.smallHeight)
      invariant large == Pick(icons[..if i == 0 then 1 else i], m.largeWidth, m.largeHeight)
    {
      assert icons[..i + 1][..i] == icons[..i];
      if Fits(icons[i], m.smallWidth, m.smallHeight) {
        small := icons[i];
      }
      if Fits(icons[i], m.largeWidth, m.largeHeight) {
        large := icons[i];
      }
    }
    assert icons[..|icons|] == icons;
  }

  /** Some icon meets the thresholds. */
  predicate AnyFits(icons: seq<Icon>, width: int, height: int)
  {
    exists i :: 0 <= i < |icons| && Fits(icons[i], width, height)
  }

  /** What the pick promises, whatever the order of the loaded icons: one
      of them; when some meets the thresholds, one that does and is no wider
      than any other that does; otherwise one of the widest. */
  predicate Chosen(c: Icon, loaded: seq<Icon>, width: int, height: int)
  {
    && c in loaded
    && (AnyFits(loaded, width, height) ==>
          Fits(c, width, height) && forall i :: 0 <= i < |loaded| && Fits(loaded[i], width, height) ==> c.width <= loaded[i].width)
    && (!AnyFits(loaded, width, height) ==> forall i :: 0 <= i < |loaded| ==> loaded[i].width <= c.width)
  }

  /** Sorting and picking meet that promise. */
  lemma PickIsChosen(loaded: seq<Icon>, width: int, height: int)
    requires |loaded| > 0
    ensures Chosen(Pick(SortByWidth(loaded), width, height), loaded, width, height)
  {
    var sorted := SortByWidth(loaded);
    SameElements(loaded, sorted);
    match LastFit(sorted, width, height)
    case Some(k) => LastFitIsNarrowest(loaded, sorted, k, width, height);
    case None => NoFitIsWidest(loaded, sorted, width, height);
  }

  lemma SameElements(a: seq<Icon>, b: seq<Icon>)
    requires multiset(a) == multiset(b)
    ensures forall x :: x in a <==> x in b
  {
    forall x ensures x in a <==> x in b {
      assert x in a <==> x in multiset(a);
      assert x in b <==> x in multiset(b);
    }
  }

  lemma LastFitIsNarrowest(loaded: seq<Icon>, sorted: seq<Icon>, k: nat, width: int, height: int)
    requires Descending(sorted) && forall x :: x in loaded <==> x in sorted
    requires LastFit(sorted, width, height) == Some(k)
    ensures Chosen(sorted[k], loaded, width, height)
  {
    var c := sorted[k];
    assert c in sorted;
    assert AnyFits(loaded, width, height) by {
      var i :| 0 <= i < |loaded| && loaded[i] == c;
    }
    forall i | 0 <= i < |loaded| && Fits(loaded[i], width, height) ensures c.width <= loaded[i].width {
      assert loaded[i] in sorted;
      var j :| 0 <= j < |sorted| && sorted[j] == loaded[i];
      assert j <= k;
    }
  }

  lemma NoFitIsWidest(loaded: seq<Icon>, sorted: seq<Icon>, width: int, height: int)
    requires |sorted| > 0 && Descending(sorted) && forall x :: x in loaded <==> x in sorted
    requires LastFit(sorted, width, height).None?
    ensures Chosen(sorted[0], loaded, width, height)
  {
    assert sorted[0] in sorted;
    forall i | 0 <= i < |loaded| ensures !Fits(loaded[i], width, height) && loaded[i].width <= sorted[0].width {
      assert loaded[i] in sorted;
      var j :| 0 <= j < |sorted| && sorted[j] == loaded[i];
    }
  }

  /** `load_icon_handles`: no icon when none loads; otherwise the small and
      the large pick among the loaded icons. */
  method LoadIconHandles(slots: seq<Option<string>>, load: string -> Loaded, m: Metrics)
    returns (small: Option<Icon>, large: Option<Icon>)
    ensures var loaded := Loadable(slots, load);
      && (small.Some? <==> |loaded| > 0) && (large.Some? <==> |loaded| > 0)
      && (small.Some? ==> Chosen(small.value, loaded, m.smallWidth, m.smallHeight))
      && (large.Some? ==> Chosen(large.value, loaded, m.largeWidth, m.largeHeight))
  {
    small := None;
    large := None;
    var icons := LoadIcons(slots, load);
    if |icons| == 0 {
      return;
    }
    var sorted := SortByWidth(icons);
    var s, l := PickIcons(sorted, m);
    PickIsChosen(icons, m.smallWidth, m.smallHeight);
    PickIsChosen(icons, m.largeWidth, m.largeHeight);
    small := Some(s);
    large := Some(l);
  }
}
