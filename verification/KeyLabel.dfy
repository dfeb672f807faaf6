/** Labels for keys kept on a KMIP server.

    A label holds the zone name, shortened when the label would be too long for
    the server. Characters are bytes (ASCII). How a name is parsed and how one
    of its labels is shown (with escapes) are parameters. Parsed names are
    without the root label.
  */
module KeyLabel {
  import opened Wrappers

  type Label = string

  /** The bytes a name builder holds: every label has a length octet. */
  function WireLen(labels: seq<Label>): nat {
    if labels == [] then 0 else WireLen(labels[..|labels| - 1]) + |labels[|labels| - 1]| + 1
  }

  predicate Fits(kept: seq<Label>, l: Label, tldLen: nat, max: nat) {
    WireLen(kept) + |l| + tldLen < max - 1
  }

  /** From the left, every label that still fits. */
  function Kept(labels: seq<Label>, tldLen: nat, max: nat): seq<Label> {
    if labels == [] then []
    else
      var l := labels[|labels| - 1];
      var kept := Kept(labels[..|labels| - 1], tldLen, max);
      if Fits(kept, l, tldLen, max) then kept + [l] else kept
  }

  function Shown(labels: seq<Label>, show: Label -> string): string {
    if labels == [] then ""
    else if |labels| == 1 then show(labels[0])
    else Shown(labels[..|labels| - 1], show) + "." + show(labels[|labels| - 1])
  }

  function Abbreviated(kept: seq<Label>, tld: Label, show: Label -> string): string {
    Shown(kept, show) + ".." + show(tld) + "."
  }

  /** Labels between the first and the last can be dropped. */
  predicate Shortens(labels: seq<Label>, max: nat) {
    && |labels| >= 2
    && Kept(labels[..|labels| - 1], WireLen([labels[|labels| - 1]]), max) != []
  }

  /** The abbreviation of a name that can be shortened. */
  function Abbreviation(labels: seq<Label>, max: nat, show: Label -> string): string
    requires |labels| >= 2
  {
    Abbreviated(Kept(labels[..|labels| - 1], WireLen([labels[|labels| - 1]]), max), labels[|labels| - 1], show)
  }

  /** Is a shown label as long as the label? */
  ghost predicate Unescaped(labels: seq<Label>, show: Label -> string) {
    forall l :: l in labels ==> |show(l)| == |l|
  }

  method TruncateZoneName(zone: string, max: nat, parse: string -> Option<seq<Label>>, show: Label -> string)
    returns (r: string)
    ensures |r| <= max
    ensures |zone| <= max ==> r == zone
    ensures |zone| > max ==>
              if max > 0 && parse(zone).Some? && Shortens(parse(zone).value, max)
                 && |Abbreviation(parse(zone).value, max, show)| <= max
              then r == Abbreviation(parse(zone).value, max, show)
              else r == zone[..max]
  {
    if |zone| <= max {
      return zone;
    }
    if max > 0 {
      var name := parse(zone);
      if name.Some? && |name.value| >= 2 {
        var labels := name.value;
        var n := |labels| - 1;
        var tld := labels[n];
        var tldLen := WireLen([tld]);
        var kept := [];
        for i := 0 to n
          invariant kept == Kept(labels[..i], tldLen, max)
        {
          var next := i + 1;
          assert labels[..next][..i] == labels[..i];
          if WireLen(kept) + |labels[i]| + tldLen < max - 1 {
            kept := kept + [labels[i]];
          }
        }
        if kept != [] {
          var short := Shown(kept, show) + ".." + show(tld) + ".";
          if |short| <= max {
            return short;
          }
        }
      }
    }
    r := zone[..max];
  }

  /** The label around the zone name. */
  function Assembled(prefix: string, zone: string, tag: string, kind: string, suffix: string): string {
    prefix + zone + "-" + tag + "-" + kind + suffix
  }

  /** No label is too long. The zone is the only part that is shortened, and
      the only error is that fewer than eight bytes are left for it. */
  method FormatKeyLabel(prefix: string, zone: string, tag: string, kind: string, suffix: string, max: nat,
                        parse: string -> Option<seq<Label>>, show: Label -> string)
    returns (r: Result<string>)
    ensures r.Ok? ==> |r.value| <= max
    ensures r.Err? <==> && |Assembled(prefix, zone, tag, kind, suffix)| > max
                        && |Assembled(prefix, "", tag, kind, suffix)| + 8 > max
    ensures |Assembled(prefix, zone, tag, kind, suffix)| <= max ==>
              r == Ok(Assembled(prefix, zone, tag, kind, suffix))
    ensures r.Ok? ==>
              && |prefix| + |tag| + |kind| + |suffix| + 2 <= |r.value|
              && var shown := r.value[|prefix|..|r.value| - (|tag| + |kind| + |suffix| + 2)];
                 r.value == Assembled(prefix, shown, tag, kind, suffix)
    ensures r.Ok? && |Assembled(prefix, zone, tag, kind, suffix)| > max ==>
              && var room := max - |Assembled(prefix, "", tag, kind, suffix)|;
              && 8 <= room < |zone|
              && (if parse(zone).Some? && Shortens(parse(zone).value, room)
                     && |Abbreviation(parse(zone).value, room, show)| <= room
                  then r.value == Assembled(prefix, Abbreviation(parse(zone).value, room, show), tag, kind, suffix)
                  else r.value == Assembled(prefix, zone[..room], tag, kind, suffix))
  {
    var name := prefix + zone + "-" + tag + "-" + kind + suffix;
    if |name| > max {
      var diff := |name| - max;
      var maxZone := if |zone| >= diff then |zone| - diff else 0;
      if maxZone < 8 {
        return Err;
      }
      var short := TruncateZoneName(zone, maxZone, parse, show);
      assert maxZone == max - |Assembled(prefix, "", tag, kind, suffix)|;
      ZoneAt(prefix, short, tag, kind, suffix);
      return Ok(Assembled(prefix, short, tag, kind, suffix));
    }
    ZoneAt(prefix, zone, tag, kind, suffix);
    r := Ok(name);
  }

  lemma ZoneAt(prefix: string, zone: string, tag: string, kind: string, suffix: string)
    ensures var s := Assembled(prefix, zone, tag, kind, suffix);
            && |s| == |prefix| + |zone| + |tag| + |kind| + |suffix| + 2
            && s[|prefix|..|s| - (|tag| + |kind| + |suffix| + 2)] == zone
  {
  }

  /** Where the labels kept stand. */
  ghost function KeptAt(labels: seq<Label>, tldLen: nat, max: nat): seq<nat> {
    if labels == [] then []
    else
      var n := |labels| - 1;
      var at := KeptAt(labels[..n], tldLen, max);
      if Fits(Kept(labels[..n], tldLen, max), labels[n], tldLen, max) then at + [n] else at
  }

  /** A shown list of labels is the labels in order with dots between them. */
  lemma {:induction false} ShownConcat(a: seq<Label>, b: seq<Label>, show: Label -> string)
    requires a != [] && b != []
    ensures Shown(a + b, show) == Shown(a, show) + "." + Shown(b, show)
    ensures forall l :: Shown([l], show) == show(l)
  {
    var m := |b| - 1;
    assert (a + b)[..|a + b| - 1] == a + b[..m];
    if m > 0 {
      ShownConcat(a, b[..m], show);
    } else {
      assert a + b[..m] == a;
    }
  }

  lemma {:induction false} WireLenConcat(a: seq<Label>, b: seq<Label>)
    ensures WireLen(a + b) == WireLen(a) + WireLen(b)
    ensures forall l :: WireLen([l]) == |l| + 1
  {
    forall l: Label ensures WireLen([l]) == |l| + 1 {
      assert [l][..0] == [];
    }
    if b == [] {
      assert a + b == a;
    } else {
      WireLenConcat(a, b[..|b| - 1]);
      assert (a + b)[..|a + b| - 1] == a + b[..|b| - 1];
    }
  }

  /** The parts of a label, from left to right. */
  lemma AssembledParts(prefix: string, zone: string, tag: string, kind: string, suffix: string)
    ensures var s := Assembled(prefix, zone, tag, kind, suffix);
            var a := |prefix| + |zone|;
            var b := a + 1 + |tag|;
            var c := b + 1 + |kind|;
            && |s| == c + |suffix|
            && s[..|prefix|] == prefix && s[|prefix|..a] == zone
            && s[a] == '-' && s[a + 1..b] == tag
            && s[b] == '-' && s[b + 1..c] == kind && s[c..] == suffix
  {
  }

  /** What is kept is in the order of the name. */
  lemma {:induction false} KeptInOrder(labels: seq<Label>, tldLen: nat, max: nat)
    ensures var at := KeptAt(labels, tldLen, max);
            && |at| == |Kept(labels, tldLen, max)|
            && (forall i, j :: 0 <= i < j < |at| ==> at[i] < at[j])
            && (forall i :: 0 <= i < |at| ==> at[i] < |labels| && Kept(labels, tldLen, max)[i] == labels[at[i]])
  {
    if labels != [] {
      KeptInOrder(labels[..|labels| - 1], tldLen, max);
    }
  }

  /** A label is kept exactly when it fits after those kept before it. */
  lemma {:induction false} KeptWhenItFits(labels: seq<Label>, tldLen: nat, max: nat, p: nat)
    requires p < |labels|
    ensures p in KeptAt(labels, tldLen, max) <==> Fits(Kept(labels[..p], tldLen, max), labels[p], tldLen, max)
  {
    var n := |labels| - 1;
    if p < n {
      KeptWhenItFits(labels[..n], tldLen, max, p);
      assert labels[..n][..p] == labels[..p] && labels[..n][p] == labels[p];
    } else {
      KeptBefore(labels[..n], tldLen, max);
    }
  }

  lemma {:induction false} KeptBefore(labels: seq<Label>, tldLen: nat, max: nat)
    ensures forall p :: p in KeptAt(labels, tldLen, max) ==> p < |labels|
  {
    if labels != [] {
      KeptBefore(labels[..|labels| - 1], tldLen, max);
    }
  }

  /** The room asked for by the loop is room enough for the dots. */
  lemma {:induction false} KeptHasRoom(labels: seq<Label>, tldLen: nat, max: nat)
    ensures Kept(labels, tldLen, max) != [] ==> WireLen(Kept(labels, tldLen, max)) + tldLen < max
  {
    if labels != [] {
      KeptHasRoom(labels[..|labels| - 1], tldLen, max);
      var kept := Kept(labels[..|labels| - 1], tldLen, max);
      assert (kept + [labels[|labels| - 1]])[..|kept|] == kept;
    }
  }

  /** Nothing is kept exactly when no label fits by itself. */
  lemma {:induction false} KeptNothing(labels: seq<Label>, tldLen: nat, max: nat)
    ensures Kept(labels, tldLen, max) == [] <==> forall l :: l in labels ==> |l| + tldLen >= max - 1
  {
    if labels != [] {
      var n := |labels| - 1;
      KeptNothing(labels[..n], tldLen, max);
      assert labels == labels[..n] + [labels[n]];
      if Kept(labels[..n], tldLen, max) != [] {
        var l :| l in labels[..n] && |l| + tldLen < max - 1;
        assert l in labels;
      }
    }
  }

  lemma {:induction false} ShownLength(labels: seq<Label>, show: Label -> string)
    requires labels != [] && Unescaped(labels, show)
    ensures |Shown(labels, show)| == WireLen(labels) - 1
  {
    if |labels| > 1 {
      ShownLength(labels[..|labels| - 1], show);
    }
  }

  lemma {:induction false} KeptComesFrom(labels: seq<Label>, tldLen: nat, max: nat)
    ensures forall l :: l in Kept(labels, tldLen, max) ==> l in labels
  {
    if labels != [] {
      KeptComesFrom(labels[..|labels| - 1], tldLen, max);
    }
  }

  /** Without escapes the last check never fails: a name that can be shortened
      by labels always is. */
  lemma {:induction false} FinalCheckIsImplied(labels: seq<Label>, max: nat, show: Label -> string)
    requires Shortens(labels, max) && Unescaped(labels, show)
    ensures |Abbreviation(labels, max, show)| <= max
  {
    var n := |labels| - 1;
    var tldLen := WireLen([labels[n]]);
    KeptHasRoom(labels[..n], tldLen, max);
    KeptComesFrom(labels[..n], tldLen, max);
    ShownLength(Kept(labels[..n], tldLen, max), show);
    assert [labels[n]][..0] == [];
  }

  /** With escapes it can, also in the smallest room ever given to a name: a
      label of one byte shown as four. */
  lemma {:induction false} FinalCheckCanFail(show: Label -> string)
    requires show("\n") == "\\010" && show("a") == "a" && show("nl") == "nl"
    ensures var labels := ["\n", "a", "nl"];
            && |Shown(labels, show) + "."| > 8
            && Shortens(labels, 8) && |Abbreviation(labels, 8, show)| > 8
  {
    var labels := ["\n", "a", "nl"];
    assert labels[..2] == ["\n", "a"];
    assert ["\n", "a"][..1] == ["\n"] && ["\n"][..0] == [];
    assert ["nl"][..0] == [];
    assert WireLen(["nl"]) == 3;
    assert WireLen(["\n"]) == 2;
    assert Kept(["\n"], 3, 8) == ["\n"];
    assert Kept(["\n", "a"], 3, 8) == ["\n", "a"];
    assert Shown(["\n", "a"], show) == "\\010" + "." + "a";
  }

  /** The two dots are true: of a name too long something was dropped. */
  lemma {:induction false} DotsMeanDropped(labels: seq<Label>, max: nat)
    requires |labels| >= 2 && WireLen(labels) > max
    ensures Kept(labels[..|labels| - 1], WireLen([labels[|labels| - 1]]), max) != labels[..|labels| - 1]
  {
    var n := |labels| - 1;
    KeptHasRoom(labels[..n], WireLen([labels[n]]), max);
    assert [labels[n]][..0] == [];
  }

  /** How many labels fit one after the other from the left. */
  function Leading(labels: seq<Label>, tldLen: nat, max: nat): (n: nat)
    ensures n <= |labels|
  {
    if labels == [] then 0
    else
      var n := Leading(labels[..|labels| - 1], tldLen, max);
      if n == |labels| - 1 && Fits(labels[..n], labels[n], tldLen, max) then n + 1 else n
  }

  /** Up to there each label fits behind those before it, and no further. */
  lemma {:induction false} LeadingFits(labels: seq<Label>, tldLen: nat, max: nat)
    ensures var n := Leading(labels, tldLen, max);
            && (forall i :: 0 <= i < n ==> Fits(labels[..i], labels[i], tldLen, max))
            && (n < |labels| ==> !Fits(labels[..n], labels[n], tldLen, max))
  {
    if labels != [] {
      var front := labels[..|labels| - 1];
      LeadingFits(front, tldLen, max);
      forall i | 0 <= i < |front| ensures front[..i] == labels[..i] {
      }
    }
  }

  /** No label is kept behind one that was dropped. */
  ghost predicate NoGap(labels: seq<Label>, tldLen: nat, max: nat) {
    forall i :: 0 <= i < |KeptAt(labels, tldLen, max)| ==> KeptAt(labels, tldLen, max)[i] == i
  }

  /** The labels kept are the leftmost ones exactly if, behind those that fit
      one after the other, none fits: a matter of the lengths of the labels. */
  lemma {:induction false} GapsExactly(labels: seq<Label>, tldLen: nat, max: nat)
    ensures var n := Leading(labels, tldLen, max);
            && (NoGap(labels, tldLen, max) <==>
                  forall q :: n <= q < |labels| ==> !Fits(labels[..n], labels[q], tldLen, max))
            && (NoGap(labels, tldLen, max) ==> Kept(labels, tldLen, max) == labels[..n])
  {
    GapsCounted(labels, tldLen, max);
  }

  ghost predicate NoneLater(labels: seq<Label>, n: nat, tldLen: nat, max: nat)
    requires n <= |labels|
  {
    forall q :: n <= q < |labels| ==> !Fits(labels[..n], labels[q], tldLen, max)
  }

  lemma {:induction false} GapsCounted(labels: seq<Label>, tldLen: nat, max: nat)
    ensures var n := Leading(labels, tldLen, max);
            && (NoneLater(labels, n, tldLen, max) ==>
                  Kept(labels, tldLen, max) == labels[..n] && NoGap(labels, tldLen, max))
            && (!NoneLater(labels, n, tldLen, max) ==> !NoGap(labels, tldLen, max))
  {
    if labels != [] {
      var front := labels[..|labels| - 1];
      GapsCounted(front, tldLen, max);
      if NoneLater(front, Leading(front, tldLen, max), tldLen, max) {
        LastLabel(labels, tldLen, max);
      } else {
        GapStays(labels, tldLen, max);
      }
    }
  }

  /** The labels kept of the front are the `n` leading ones. */
  ghost predicate FrontLeads(labels: seq<Label>, n: nat, tldLen: nat, max: nat)
    requires n < |labels|
  {
    var front := labels[..|labels| - 1];
    && n == Leading(front, tldLen, max)
    && Kept(front, tldLen, max) == labels[..n]
    && NoGap(front, tldLen, max) && |KeptAt(front, tldLen, max)| == n
  }

  lemma {:induction false} KeptCount(labels: seq<Label>, tldLen: nat, max: nat)
    ensures |KeptAt(labels, tldLen, max)| == |Kept(labels, tldLen, max)|
  {
    KeptInOrder(labels, tldLen, max);
  }

  lemma {:induction false} LastLabel(labels: seq<Label>, tldLen: nat, max: nat)
    requires labels != []
    requires var front := labels[..|labels| - 1];
             var n := Leading(front, tldLen, max);
             NoneLater(front, n, tldLen, max) && Kept(front, tldLen, max) == front[..n] && NoGap(front, tldLen, max)
    ensures var n := Leading(labels, tldLen, max);
            if NoneLater(labels, n, tldLen, max)
            then Kept(labels, tldLen, max) == labels[..n] && NoGap(labels, tldLen, max)
            else !NoGap(labels, tldLen, max)
  {
    var m := |labels| - 1;
    var front, n := labels[..m], Leading(labels[..m], tldLen, max);
    assert front[..n] == labels[..n];
    KeptCount(front, tldLen, max);
    if Fits(labels[..n], labels[m], tldLen, max) {
      LastFits(labels, n, tldLen, max);
    } else {
      forall q | n <= q < m ensures !Fits(labels[..n], labels[q], tldLen, max) {
        assert labels[q] == front[q];
      }
      LastDropped(labels, n, tldLen, max);
    }
  }

  lemma {:induction false} LastFits(labels: seq<Label>, n: nat, tldLen: nat, max: nat)
    requires n < |labels| && FrontLeads(labels, n, tldLen, max)
    requires Fits(labels[..n], labels[|labels| - 1], tldLen, max)
    ensures if n == |labels| - 1
            then
              && Leading(labels, tldLen, max) == |labels|
              && Kept(labels, tldLen, max) == labels && NoGap(labels, tldLen, max)
            else Leading(labels, tldLen, max) == n && !NoneLater(labels, n, tldLen, max) && !NoGap(labels, tldLen, max)
  {
    var m := |labels| - 1;
    assert labels[..m][..n] == labels[..n];
    assert KeptAt(labels, tldLen, max)[n] == m;
    if n == m {
      assert labels[..n] + [labels[m]] == labels;
    }
  }

  lemma {:induction false} LastDropped(labels: seq<Label>, n: nat, tldLen: nat, max: nat)
    requires n < |labels| && FrontLeads(labels, n, tldLen, max)
    requires !Fits(labels[..n], labels[|labels| - 1], tldLen, max)
    ensures Leading(labels, tldLen, max) == n && Kept(labels, tldLen, max) == labels[..n] && NoGap(labels, tldLen, max)
  {
    assert labels[..|labels| - 1][..n] == labels[..n];
  }

  lemma {:induction false} GapStays(labels: seq<Label>, tldLen: nat, max: nat)
    requires labels != []
    requires var front := labels[..|labels| - 1];
             !NoneLater(front, Leading(front, tldLen, max), tldLen, max) && !NoGap(front, tldLen, max)
    ensures !NoneLater(labels, Leading(labels, tldLen, max), tldLen, max) && !NoGap(labels, tldLen, max)
  {
    var m := |labels| - 1;
    var front, n := labels[..m], Leading(labels[..m], tldLen, max);
    var at := KeptAt(front, tldLen, max);
    var i :| 0 <= i < |at| && at[i] != i;
    assert KeptAt(labels, tldLen, max)[i] == at[i];
    var q :| n <= q < m && Fits(front[..n], front[q], tldLen, max);
    assert front[..n] == labels[..n] && front[q] == labels[q];
    assert Fits(labels[..n], labels[q], tldLen, max);
  }

  /** Labels go on being added after one that did not fit, so those kept need
      not be the leftmost ones. */
  lemma {:induction false} GapsHappen()
    ensures Kept(["a", "nlnetlabs", "b"], 3, 10) == ["a", "b"]
  {
    assert ["a", "nlnetlabs", "b"][..2] == ["a", "nlnetlabs"];
    assert ["a", "nlnetlabs"][..1] == ["a"] && ["a"][..0] == [];
    assert WireLen(["a"]) == 2;
    assert Kept(["a"], 3, 10) == ["a"];
    assert Kept(["a", "nlnetlabs"], 3, 10) == ["a"];
  }
}
