/**
 * The class-name joiner `cn`: it drops the falsy arguments and joins the rest with a
 * single space.
 */
module Utils {
  import Seqs

  /** One argument of `cn`: a string, a boolean, `undefined` or `null`. */
  datatype ClassValue = Str(s: string) | Flag(b: bool) | Undefined | Null

  /** `Boolean(v)` */
  predicate Truthy(v: ClassValue)
  {
    match v
    case Str(s) => s != ""
    case Flag(b) => b
    case _ => false
  }

  /** How `join` renders a kept argument: a string as itself, `true` as "true". */
  function Render(v: ClassValue): string
  {
    match v
    case Str(s) => s
    case Flag(b) => if b then "true" else "false"
    case Undefined => ""
    case Null => ""
  }

  /** `classes.filter(Boolean).join(' ')` */
  function Cn(classes: seq<ClassValue>): string
  {
    Seqs.Join(Seqs.Map(Render, Seqs.Filter(Truthy, classes)), " ")
  }

  /** A kept argument renders to a non-empty string. */
  lemma RenderTruthy(v: ClassValue)
    requires Truthy(v)
    ensures |Render(v)| > 0
  {
  }

  /** Joining non-empty parts yields "" only for no parts. */
  lemma {:induction false} JoinNonEmpty(parts: seq<string>, sep: string)
    requires forall i :: 0 <= i < |parts| ==> |parts[i]| > 0
    ensures Seqs.Join(parts, sep) == "" <==> parts == []
  {
    if |parts| > 1 {
      JoinNonEmpty(parts[1..], sep);
      assert |Seqs.Join(parts, sep)| >= |parts[0]|;
    }
  }

  /** The result is "" exactly when no argument is truthy. */
  lemma CnEmpty(classes: seq<ClassValue>)
    ensures Cn(classes) == "" <==> forall i :: 0 <= i < |classes| ==> !Truthy(classes[i])
  {
    var kept := Seqs.Filter(Truthy, classes);
    var parts := Seqs.Map(Render, kept);
    forall i | 0 <= i < |parts| ensures |parts[i]| > 0 {
      RenderTruthy(kept[i]);
    }
    JoinNonEmpty(parts, " ");
    Seqs.FilterEmptyIff(Truthy, classes);
  }

  /** A single non-empty string comes back unchanged, and `true` comes out as "true". */
  lemma CnSingle(s: string)
    requires s != ""
    ensures Cn([Str(s)]) == s
    ensures Cn([Flag(true)]) == "true"
    ensures Cn([Flag(false)]) == "" && Cn([Undefined]) == "" && Cn([Null]) == "" && Cn([Str("")]) == ""
  {
    assert [Str(s)][1..] == [];
    assert [Flag(true)][1..] == [];
    assert Seqs.Filter(Truthy, [Str(s)]) == [Str(s)];
    assert Seqs.Filter(Truthy, [Flag(true)]) == [Flag(true)];
  }

  /**
   * Arguments keep their order: two groups that each keep something are joined with
   * one space, and a group that keeps nothing contributes nothing.
   */
  lemma CnAppend(a: seq<ClassValue>, b: seq<ClassValue>)
    ensures Cn(a) != "" && Cn(b) != "" ==> Cn(a + b) == Cn(a) + " " + Cn(b)
    ensures Cn(b) == "" ==> Cn(a + b) == Cn(a)
    ensures Cn(a) == "" ==> Cn(a + b) == Cn(b)
  {
    var ka, kb := Seqs.Filter(Truthy, a), Seqs.Filter(Truthy, b);
    Seqs.FilterAppend(Truthy, a, b);
    Seqs.MapAppend(Render, ka, kb);
    if ka != [] && kb != [] {
      Seqs.JoinAppend(Seqs.Map(Render, ka), Seqs.Map(Render, kb), " ");
    }
    CnEmpty(a);
    CnEmpty(b);
    Seqs.FilterEmptyIff(Truthy, a);
    Seqs.FilterEmptyIff(Truthy, b);
    assert ka == [] ==> ka + kb == kb;
    assert kb == [] ==> ka + kb == ka;
  }
}
