// Which hosts a link may name (apps/rich-editor/src/href.ts:109-139): names of dot-separated labels, no address in numbers and
// nothing below "localhost".

module HostNames {
  import opened Base
  import opened Href

  /** Names joined by dots. */
  function Dotted(names: seq<string>): string {
    if names == [] then "" else if |names| == 1 then names[0] else names[0] + "." + Dotted(names[1..])
  }

  predicate HostChar(c: char) { 'a' <= c <= 'z' || '0' <= c <= '9' || c == '-' }

  /** A label: hyphens inside only, and two of them after two characters only behind "xn". */
  predicate LabelName(l: string) {
    && l != "" && (forall i :: 0 <= i < |l| ==> HostChar(l[i])) && l[0] != '-' && l[|l|-1] != '-'
    && (|l| >= 4 && l[2] == '-' && l[3] == '-' ==> l[0] == 'x' && l[1] == 'n')
  }

  predicate Decimal(l: string) { l != "" && forall i :: 0 <= i < |l| ==> '0' <= l[i] <= '9' }

  predicate Hexadecimal(l: string) {
    |l| >= 2 && l[0] == '0' && l[1] == 'x' && forall i :: 2 <= i < |l| ==> '0' <= l[i] <= '9' || 'a' <= l[i] <= 'f'
  }

  /** Labels joined by dots, the last one no number and not "localhost". */
  ghost predicate HostOf(h: string, labels: seq<string>) {
    && labels != [] && h == Dotted(labels) && (forall k :: 0 <= k < |labels| ==> LabelName(labels[k]))
    && var last := labels[|labels|-1]; last != "localhost" && !Decimal(last) && !Hexadecimal(last)
  }

  ghost predicate HostName(h: string) { exists labels :: HostOf(h, labels) }

  predicate DotFree(s: string) { forall i :: 0 <= i < |s| ==> s[i] != '.' }

  predicate AllDotFree(ls: seq<string>) { forall k :: 0 <= k < |ls| ==> DotFree(ls[k]) }

  /** The labels of a host, and the host of labels. */
  lemma {:induction false} LabelsJoin(h: string)
    ensures Labels(h) != [] && Dotted(Labels(h)) == h && AllDotFree(Labels(h))
  {
    var i := IndexOf(h, c => c == '.');
    if i == |h| {
      assert DotFree(h);
    } else {
      LabelsJoin(h[i+1..]);
      var rest := Labels(h[i+1..]);
      assert ([h[..i]] + rest)[1..] == rest;
      assert h == h[..i] + "." + h[i+1..];
    }
  }

  lemma {:induction false} LabelsOf(ls: seq<string>)
    requires ls != [] && AllDotFree(ls)
    ensures Labels(Dotted(ls)) == ls
    decreases |ls|
  {
    hide DotFree, Labels, Dotted;
    assert DotFree(ls[0]);
    FirstLabel(ls);
    if |ls| > 1 {
      assert AllDotFree(ls[1..]);
      LabelsOf(ls[1..]);
    }
    assert ls == [ls[0]] + ls[1..];
  }

  lemma {:induction false} FirstLabel(ls: seq<string>)
    requires ls != [] && DotFree(ls[0])
    ensures Labels(Dotted(ls)) == [ls[0]] + if |ls| == 1 then [] else Labels(Dotted(ls[1..]))
  {
    var h := Dotted(ls);
    if |ls| == 1 {
      IndexIs(h, c => c == '.', |h|);
    } else {
      hide Dotted;
      assert h == ls[0] + "." + Dotted(ls[1..]) by { DottedFirst(ls); }
      IndexIs(h, c => c == '.', |ls[0]|);
      assert h[..|ls[0]|] == ls[0] && h[|ls[0]|+1..] == Dotted(ls[1..]);
    }
  }

  lemma {:induction false} DottedFirst(ls: seq<string>)
    requires |ls| > 1
    ensures Dotted(ls) == ls[0] + "." + Dotted(ls[1..])
  {}

  predicate AllHostChars(s: string) { forall i :: 0 <= i < |s| ==> IsHostChar(s[i]) }

  lemma {:induction false} DottedChars(ls: seq<string>)
    requires ls != []
    ensures AllHostChars(Dotted(ls)) <==> forall k :: 0 <= k < |ls| ==> AllHostChars(ls[k])
    decreases |ls|
  {
    if |ls| > 1 {
      DottedChars(ls[1..]);
      JoinedChars(ls[0], Dotted(ls[1..]));
      assert forall k :: 0 <= k < |ls| ==> ls[k] == if k == 0 then ls[0] else ls[1..][k-1];
    }
  }

  lemma {:induction false} JoinedChars(a: string, t: string)
    ensures AllHostChars(a + "." + t) <==> AllHostChars(a) && AllHostChars(t)
  {
    var s := a + "." + t;
    assert forall i :: 0 <= i < |a| ==> s[i] == a[i];
    assert forall i :: 0 <= i < |t| ==> s[|a| + 1 + i] == t[i];
  }

  lemma {:induction false} LabelsAgree(l: string)
    requires DotFree(l)
    ensures LabelOk(l) && AllHostChars(l) <==> LabelName(l)
  {
    if |l| >= 4 {
      assert l[2..4] == "--" <==> l[2] == '-' && l[3] == '-';
      assert StartsWith(l, "xn--") <==> l[0] == 'x' && l[1] == 'n' && l[2] == '-' && l[3] == '-';
    }
  }

  lemma {:induction false} NumbersAgree(l: string)
    ensures IsNumericLabel(l) <==> Decimal(l) || Hexadecimal(l)
  {
    assert StartsWith(l, "0x") <==> |l| >= 2 && l[0] == '0' && l[1] == 'x';
  }

  // ---- localhost ----

  lemma {:induction false} DottedEnds(ls: seq<string>)
    requires |ls| > 1
    ensures EndsWith(Dotted(ls), "." + ls[|ls|-1])
  {
    var h, t := Dotted(ls), Dotted(ls[1..]);
    if |ls| == 2 {
      assert t == ls[1] && h[|ls[0]|..] == "." + ls[1];
    } else {
      DottedEnds(ls[1..]);
      var e := "." + ls[|ls|-1];
      assert h[|h|-|e|..] == t[|t|-|e|..];
    }
  }

  /** What stands behind the last dot is determined. */
  lemma {:induction false} OneEnd(s: string, x: string, y: string)
    requires DotFree(x) && DotFree(y) && EndsWith(s, "." + x) && EndsWith(s, "." + y)
    ensures x == y
  {
    EndChars(s, x);
    EndChars(s, y);
    assert !(|x| < |y|) && !(|y| < |x|);
  }

  lemma {:induction false} EndChars(s: string, x: string)
    requires EndsWith(s, "." + x)
    ensures |x| < |s| && s[|s|-|x|-1] == '.' && s[|s|-|x|..] == x && forall i :: 0 <= i < |x| ==> s[|s|-|x|+i] == x[i]
  {
    var e := "." + x;
    assert forall i :: 0 <= i < |e| ==> s[|s|-|e|+i] == s[|s|-|e|..][i] == e[i];
  }

  /** A name with a dot in it. */
  lemma {:induction false} BehindDot(h: string, last: string)
    requires DotFree(last) && EndsWith(h, "." + last)
    ensures h != "localhost" && (EndsWith(h, ".localhost") <==> last == "localhost")
  {
    hide EndsWith, DotFree;
    NoDotThere();
    assert "." + "localhost" == ".localhost";
    EndChars(h, last);
    DotIn(h, |h| - |last| - 1);
    if EndsWith(h, ".localhost") { OneEnd(h, last, "localhost"); }
  }

  lemma {:induction false} NoDotThere()
    ensures DotFree("localhost")
  {}

  lemma {:induction false} DotIn(h: string, i: nat)
    requires i < |h| && h[i] == '.'
    ensures !DotFree(h)
  {}

  lemma {:induction false} NoDotLast(h: string)
    requires DotFree(h)
    ensures !EndsWith(h, ".localhost")
  {
    hide EndsWith, DotFree;
    assert "." + "localhost" == ".localhost";
    if EndsWith(h, ".localhost") {
      EndChars(h, "localhost");
      DotIn(h, |h| - 10);
    }
  }

  lemma {:induction false} LastLabel(ls: seq<string>)
    requires ls != [] && AllDotFree(ls)
    ensures Dotted(ls) == "localhost" || EndsWith(Dotted(ls), ".localhost") <==> ls[|ls|-1] == "localhost"
  {
    hide EndsWith, DotFree;
    assert DotFree(ls[|ls|-1]);
    if |ls| > 1 {
      DottedEnds(ls);
      BehindDot(Dotted(ls), ls[|ls|-1]);
    } else {
      NoDotLast(ls[0]);
    }
  }

  /** The host check accepts exactly the host names. */
  lemma {:induction false} HostOkExactly(h: string)
    ensures HostOk(h) <==> HostName(h)
  {
    hide LabelOk, LabelName, IsNumericLabel, Decimal, Hexadecimal, Labels, Dotted, EndsWith, DotFree;
    var ls := Labels(h);
    LabelsJoin(h);
    DottedChars(ls);
    LastLabel(ls);
    NumbersAgree(ls[|ls|-1]);
    forall k | 0 <= k < |ls| ensures LabelOk(ls[k]) && AllHostChars(ls[k]) <==> LabelName(ls[k]) { LabelsAgree(ls[k]); }
    SomeHost(h, ls);
    if HostOk(h) {
      assert HostOf(h, ls);
    }
    if HostName(h) {
      var other :| HostOf(h, other);
      forall k | 0 <= k < |other| ensures DotFree(other[k]) && other[k] != "" { NoDots(other[k]); }
      LabelsOf(other);
      assert ls == other && h != "";
      forall l | l in ls ensures LabelOk(l) {
        var k :| 0 <= k < |ls| && ls[k] == l;
        assert LabelName(ls[k]);
      }
      forall k | 0 <= k < |ls| ensures AllHostChars(ls[k]) { assert LabelName(ls[k]); }
    }
  }

  lemma {:induction false} NoDots(l: string)
    requires LabelName(l)
    ensures DotFree(l) && l != ""
  {}

  lemma {:induction false} SomeHost(h: string, ls: seq<string>)
    requires ls != [] && h == Dotted(ls)
    ensures h == "" ==> ls[0] == ""
  {}

  /** So no address in numbers passes, and nothing below "localhost". */
  lemma {:induction false} NumbersAreNoHosts(ls: seq<string>)
    requires ls != [] && AllDotFree(ls)
    requires var last := ls[|ls|-1]; Decimal(last) || Hexadecimal(last) || last == "localhost"
    ensures !HostOk(Dotted(ls))
    ensures !HostOk("127.0.0.1") && !HostOk("0x7f.1")
  {
    hide HostOk, Decimal, Hexadecimal, Labels, Dotted, LabelName, DotFree;
    NotAHost(ls);
    LoopbackDotted();
    NotAHost(["127", "0", "0", "1"]);
    NotAHost(["0x7f", "1"]);
  }

  lemma {:induction false} NotAHost(ls: seq<string>)
    requires ls != [] && AllDotFree(ls)
    requires var last := ls[|ls|-1]; Decimal(last) || Hexadecimal(last) || last == "localhost"
    ensures !HostOk(Dotted(ls))
  {
    hide HostOk, Decimal, Hexadecimal, Labels, Dotted, LabelName, DotFree;
    HostOkExactly(Dotted(ls));
    if HostName(Dotted(ls)) {
      var other :| HostOf(Dotted(ls), other);
      forall k | 0 <= k < |other| ensures DotFree(other[k]) { NoDots(other[k]); }
      LabelsOf(ls);
      LabelsOf(other);
    }
  }

  lemma {:induction false} LoopbackDotted()
    ensures Dotted(["127", "0", "0", "1"]) == "127.0.0.1" && Dotted(["0x7f", "1"]) == "0x7f.1" && Decimal("1")
    ensures AllDotFree(["127", "0", "0", "1"]) && AllDotFree(["0x7f", "1"])
  {
    var a := ["127", "0", "0", "1"];
    assert a[1..] == ["0", "0", "1"] && a[1..][1..] == ["0", "1"] && a[1..][1..][1..] == ["1"];
    assert Dotted(["1"]) == "1" && Dotted(["0", "1"]) == "0.1" && Dotted(["0", "0", "1"]) == "0.0.1";
    assert ["0x7f", "1"][1..] == ["1"];
  }
}
