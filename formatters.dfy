/** `cn`, the class-name combiner: drop the falsy arguments, join the rest with single spaces. */
module Formatters {
  import Seqs
  import opened Strings

  /** One argument of `cn`: a class string, or one of the falsy values callers pass for "no class"
      (`undefined`, `null`, `false`, as in `hover && HOVER_STYLES`). */
  datatype ClassValue = Str(text: string) | Undefined | Null | False

  /** `Boolean(v)`: only a non-empty string is truthy. */
  predicate Truthy(v: ClassValue) {
    v.Str? && v.text != ""
  }

  /** The class strings that survive `filter(Boolean)`, in argument order. */
  function Survivors(classes: seq<ClassValue>): (r: seq<string>)
    ensures |r| <= |classes|
    ensures forall i :: 0 <= i < |r| ==> r[i] != ""
  {
    var kept := Seqs.Filter(Truthy, classes);
    seq(|kept|, i requires 0 <= i < |kept| => kept[i].text)
  }

  /** `cn(...classes)`. */
  function Cn(classes: seq<ClassValue>): string {
    Join(Survivors(classes), " ")
  }

  /** A class string survives exactly when it is a non-empty argument; nothing falsy survives. */
  lemma SurvivorsSoundAndComplete(classes: seq<ClassValue>, s: string)
    ensures s in Survivors(classes) <==> s != "" && Str(s) in classes
  {
    var kept := Seqs.Filter(Truthy, classes);
    Seqs.FilterMembership(Truthy, classes, Str(s));
    if s in Survivors(classes) {
      var i :| 0 <= i < |kept| && kept[i].text == s;
      assert kept[i] == Str(s);
    }
    if s != "" && Str(s) in classes {
      var i :| 0 <= i < |kept| && kept[i] == Str(s);
      assert Survivors(classes)[i] == s;
    }
  }

  /** Survivors of a concatenation are the survivors of each part, in order: `cn` never reorders. */
  lemma SurvivorsAppend(a: seq<ClassValue>, b: seq<ClassValue>)
    ensures Survivors(a + b) == Survivors(a) + Survivors(b)
  {
    Seqs.FilterAppend(Truthy, a, b);
  }

  /** `cn` returns the empty string exactly when no argument is truthy. */
  lemma CnEmptyIff(classes: seq<ClassValue>)
    ensures Cn(classes) == "" <==> forall i :: 0 <= i < |classes| ==> !Truthy(classes[i])
  {
    var r := Survivors(classes);
    JoinEmptyIff(r, " ");
    if exists i :: 0 <= i < |classes| && Truthy(classes[i]) {
      var i :| 0 <= i < |classes| && Truthy(classes[i]);
      SurvivorsSoundAndComplete(classes, classes[i].text);
      assert r != [] && r != [""];
    } else if r != [] {
      SurvivorsSoundAndComplete(classes, r[0]);
      assert false;
    }
  }

  /** With k surviving strings, the result is their concatenation plus k - 1 single spaces. */
  lemma CnLength(classes: seq<ClassValue>)
    requires |Survivors(classes)| >= 1
    ensures |Cn(classes)| == TotalLength(Survivors(classes)) + |Survivors(classes)| - 1
  {
    JoinLength(Survivors(classes), " ");
  }

  /** `cn` of a single non-empty string is that string. */
  lemma CnSingle(s: string)
    requires s != ""
    ensures Cn([Str(s)]) == s
  {
    assert Seqs.Filter(Truthy, [Str(s)]) == [Str(s)];
  }

  /** `cn(a..., b...)` is `cn(a...)`, one space, `cn(b...)` when both contribute a class,
      and whichever contributes when only one does. */
  lemma CnConcat(a: seq<ClassValue>, b: seq<ClassValue>)
    ensures Survivors(a) != [] && Survivors(b) != [] ==> Cn(a + b) == Cn(a) + " " + Cn(b)
    ensures Survivors(b) == [] ==> Cn(a + b) == Cn(a)
    ensures Survivors(a) == [] ==> Cn(a + b) == Cn(b)
  {
    SurvivorsAppend(a, b);
    if Survivors(a) != [] && Survivors(b) != [] {
      JoinAppend(Survivors(a), Survivors(b), " ");
    }
    assert Survivors(a) + [] == Survivors(a);
    assert [] + Survivors(b) == Survivors(b);
  }

  /** Read back as a list of space-separated tokens, the result is exactly the surviving
      arguments, provided none of them holds a space itself. */
  lemma CnTokens(classes: seq<ClassValue>)
    requires |Survivors(classes)| >= 1
    requires forall i :: 0 <= i < |classes| && classes[i].Str? ==> ' ' !in classes[i].text
    ensures Split(Cn(classes), ' ') == Survivors(classes)
  {
    var r := Survivors(classes);
    forall i | 0 <= i < |r| ensures ' ' !in r[i] {
      SurvivorsSoundAndComplete(classes, r[i]);
    }
    SplitJoin(r, ' ');
  }
}
