/** What the translation promises as a whole: the lists of methods and
    classes come out in order and fail exactly when one member fails, the
    label ranges of different methods never overlap, every branch of a
    translated method lands on a label placed exactly once in it, and the
    slot table numbers formals and locals consecutively from 1. */
module TranslateProps {
  import opened Wrappers
  import Ast
  import opened Bytecode
  import opened TranslateSpec
  import opened TranslateLabels
  import TranslateLemmas

  // ---------------------------------------------------------------------
  // Types

  /** `transformType`, which goes by the type's number, agrees with the
      type visitors: the non-positive numbers give int, 1 gives int[] and 2
      a class type of the same name; the lowered type is a reference
      exactly when the source type is. */
  lemma TransformTypeAgrees(t: Ast.Type)
    ensures TransformType(t) == LowerType(t)
    ensures Ast.TypeNum(t) <= 0 <==> TransformType(t) == Int
    ensures Ast.TypeNum(t) == 1 <==> TransformType(t) == IntArray
    ensures t.ClassType? <==> TransformType(t).ClassType?
    ensures t.ClassType? ==> TransformType(t).id == t.id
    ensures Ast.IsReference(t) <==> TransformType(t) != Int
  {
  }

  // ---------------------------------------------------------------------
  // Lists of results

  /** A list visitor succeeds exactly when every element does, and then
      holds every element's result in order. */
  lemma {:induction false} AllSomeIff<B>(rs: seq<Option<B>>)
    ensures AllSome(rs).Some? <==> forall i :: 0 <= i < |rs| ==> rs[i].Some?
    ensures AllSome(rs).Some? ==>
      |AllSome(rs).value| == |rs| && forall i :: 0 <= i < |rs| ==> rs[i] == Some(AllSome(rs).value[i])
    decreases |rs|
  {
    if rs != [] {
      var p := rs[..|rs| - 1];
      AllSomeIff(p);
      assert forall i :: 0 <= i < |p| ==> p[i] == rs[i];
    }
  }

  /** One method translated: it succeeds iff the method resolves, and
      then it is the source method, in the class, with the code of its
      statements and return and as many local slots as it has formals and
      locals plus `this`. */
  lemma MethodSpecFacts(m: Ast.Method, classId: string, lab: Label)
    ensures MethodSpec(m, classId, lab).Some? <==> MethodResolves(m)
    ensures MethodSpec(m, classId, lab).Some? ==>
      var r := MethodSpec(m, classId, lab).value;
      && r.id == m.id && r.classId == classId
      && r.stms == MethodCode(m, classId, lab)
      && r.index == 1 + |m.formals| + |m.locals|
  {
  }

  /** Every method of a class resolves. */
  predicate MethodsResolve(ms: seq<Ast.Method>)
  {
    forall i :: 0 <= i < |ms| ==> MethodResolves(ms[i])
  }

  /** The methods of a class: translated iff every one of them resolves,
      and then one result per method, in order. */
  lemma MethodsSpecIff(ms: seq<Ast.Method>, classId: string, lab: Label)
    ensures MethodsSpec(ms, classId, lab).Some? <==> MethodsResolve(ms)
    ensures MethodsSpec(ms, classId, lab).Some? ==>
      var out := MethodsSpec(ms, classId, lab).value;
      && |out| == |ms|
      && forall i :: 0 <= i < |ms| ==> MethodResults(ms, classId, lab)[i] == Some(out[i])
  {
    var rs := MethodResults(ms, classId, lab);
    AllSomeIff(rs);
    forall i | 0 <= i < |ms|
      ensures rs[i].Some? <==> MethodResolves(ms[i])
    {
      TranslateLemmas.MethodResultAt(ms, classId, lab, i);
      MethodSpecFacts(ms[i], classId, lab + MethodsLabels(ms[..i]));
    }
  }

  /** The i-th translated method of a class is its i-th method, translated
      with the counter where the methods before it leave it. */
  lemma MethodsSpecAt(ms: seq<Ast.Method>, classId: string, lab: Label, out: seq<Method>, i: nat)
    requires MethodsSpec(ms, classId, lab) == Some(out) && i < |ms|
    ensures i < |out| && MethodSpec(ms[i], classId, lab + MethodsLabels(ms[..i])) == Some(out[i])
  {
    MethodsSpecIff(ms, classId, lab);
    TranslateLemmas.MethodResultAt(ms, classId, lab, i);
  }

  /** Every method of every class resolves. */
  predicate AllMethodsResolve(cs: seq<Ast.Class>)
  {
    forall i :: 0 <= i < |cs| ==> MethodsResolve(cs[i].methods)
  }

  /** The classes of a program: translated iff every method of every class
      resolves, and then the i-th translated class is the i-th source
      class, with its superclass and one translated method per method. */
  lemma ClassesSpecIff(cs: seq<Ast.Class>, lab: Label)
    ensures ClassesSpec(cs, lab).Some? <==> AllMethodsResolve(cs)
    ensures ClassesSpec(cs, lab).Some? ==>
      var out := ClassesSpec(cs, lab).value;
      && |out| == |cs|
      && forall i :: 0 <= i < |cs| ==>
           out[i].id == cs[i].id && out[i].extendss == cs[i].extendss && |out[i].methods| == |cs[i].methods|
  {
    var rs := ClassResults(cs, lab);
    AllSomeIff(rs);
    forall i | 0 <= i < |cs|
      ensures rs[i].Some? <==> MethodsResolve(cs[i].methods)
      ensures rs[i].Some? ==> rs[i].value.id == cs[i].id && rs[i].value.extendss == cs[i].extendss
                              && |rs[i].value.methods| == |cs[i].methods|
    {
      ClassResultFacts(cs, lab, i);
    }
  }

  lemma ClassResultFacts(cs: seq<Ast.Class>, lab: Label, i: nat)
    requires i < |cs|
    ensures var r := ClassResults(cs, lab)[i];
      && (r.Some? <==> MethodsResolve(cs[i].methods))
      && (r.Some? ==> r.value.id == cs[i].id && r.value.extendss == cs[i].extendss
                      && |r.value.methods| == |cs[i].methods|)
  {
    TranslateLemmas.ClassResultAt(cs, lab, i);
    ClassSpecIff(cs[i], lab + ClassesLabels(cs[..i]));
  }

  /** One class translated: it succeeds iff its methods resolve, keeping
      its name, its superclass and its number of methods. */
  lemma ClassSpecIff(c: Ast.Class, lab: Label)
    ensures var r := ClassSpec(c, lab);
      && (r.Some? <==> MethodsResolve(c.methods))
      && (r.Some? ==> r.value.id == c.id && r.value.extendss == c.extendss
                      && |r.value.methods| == |c.methods|)
  {
    ClassSpecFacts(c, lab);
    MethodsSpecIff(c.methods, c.id, lab);
  }

  /** One class translated: it succeeds iff its methods do, and keeps its
      name, its superclass and its fields, lowered. */
  lemma ClassSpecFacts(c: Ast.Class, lab: Label)
    ensures ClassSpec(c, lab).Some? <==> MethodsSpec(c.methods, c.id, lab).Some?
    ensures ClassSpec(c, lab).Some? ==>
      var r := ClassSpec(c, lab).value;
      && r.id == c.id && r.extendss == c.extendss && r.decs == LowerDecs(c.decs)
      && Some(r.methods) == MethodsSpec(c.methods, c.id, lab)
  {
  }

  /** The i-th translated class is the i-th class, translated with the
      counter where the classes before it leave it. */
  lemma ClassesSpecAt(cs: seq<Ast.Class>, lab: Label, out: seq<Class>, i: nat)
    requires ClassesSpec(cs, lab) == Some(out) && i < |cs|
    ensures i < |out| && ClassSpec(cs[i], lab + ClassesLabels(cs[..i])) == Some(out[i])
  {
    var rs := ClassResults(cs, lab);
    AllSomeIff(rs);
    TranslateLemmas.ClassResultAt(cs, lab, i);
  }

  // ---------------------------------------------------------------------
  // Labels across methods

  lemma {:induction false} MethodsLabelsMono(ms: seq<Ast.Method>, i: nat, j: nat)
    requires i <= j <= |ms|
    ensures MethodsLabels(ms[..i]) <= MethodsLabels(ms[..j])
    decreases j - i
  {
    if i < j {
      MethodsLabelsMono(ms, i, j - 1);
      assert ms[..j][..j - 1] == ms[..j - 1];
    }
  }

  /** Two pieces of code that place disjoint ranges of labels share no label. */
  lemma Separate(a: seq<Instr>, la: Label, na: nat, b: seq<Instr>, lb: Label, nb: nat, l: Label)
    requires LabelsOk(a, la, na) && LabelsOk(b, lb, nb) && (la + na <= lb || lb + nb <= la)
    ensures MarksOf(a, l) == 0 || MarksOf(b, l) == 0
  {
  }

  /** The counter is shared by all methods, so no label is placed in two
      different methods of a class. */
  lemma MethodLabelsDisjoint(ms: seq<Ast.Method>, classId: string, lab: Label, i: nat, j: nat, l: Label)
    requires i < |ms| && j < |ms| && i != j
    ensures MarksOf(MethodCode(ms[i], classId, MethodStart(ms, lab, i)), l) == 0
         || MarksOf(MethodCode(ms[j], classId, MethodStart(ms, lab, j)), l) == 0
  {
    if i < j {
      MethodsOrdered(ms, lab, i, j);
      MethodsSeparate(ms[i], ms[j], classId, MethodStart(ms, lab, i), MethodStart(ms, lab, j), l);
    } else {
      MethodsOrdered(ms, lab, j, i);
      MethodsSeparate(ms[j], ms[i], classId, MethodStart(ms, lab, j), MethodStart(ms, lab, i), l);
    }
  }

  /** Where the code of the i-th method of a class takes its labels from,
      when the class starts at `lab`. */
  function MethodStart(ms: seq<Ast.Method>, lab: Label, i: nat): Label
    requires i <= |ms|
  {
    lab + MethodsLabels(ms[..i])
  }

  /** The labels of an earlier method end before a later method's start. */
  lemma MethodsOrdered(ms: seq<Ast.Method>, lab: Label, i: nat, j: nat)
    requires i < j < |ms|
    ensures MethodStart(ms, lab, i) + MethodLabels(ms[i]) <= MethodStart(ms, lab, j)
  {
    TranslateLemmas.MethodsLabelsGrow(ms, i, lab);
    MethodsLabelsMono(ms, i + 1, j);
  }

  /** Two methods translated with label ranges one after the other place
      no label in common. */
  lemma MethodsSeparate(m: Ast.Method, n: Ast.Method, classId: string, lm: Label, ln: Label, l: Label)
    requires lm + MethodLabels(m) <= ln
    ensures MarksOf(MethodCode(m, classId, lm), l) == 0 || MarksOf(MethodCode(n, classId, ln), l) == 0
  {
    MethodLabelsOk(m, classId, lm);
    MethodLabelsOk(n, classId, ln);
    Separate(MethodCode(m, classId, lm), lm, MethodLabels(m), MethodCode(n, classId, ln), ln, MethodLabels(n), l);
  }

  /** Every branch of a translated method lands on a label that the method
      places exactly once. */
  lemma MethodJumpsLand(m: Ast.Method, classId: string, lab: Label)
    ensures var code := MethodCode(m, classId, lab);
      forall k :: 0 <= k < |code| && code[k].IsJump() ==> MarksOf(code, code[k].target) == 1
  {
    MethodLabelsOk(m, classId, lab);
  }

  /** The labels of the k-th method lie inside those of the whole class. */
  lemma MethodLabelsWithin(ms: seq<Ast.Method>, k: nat)
    requires k < |ms|
    ensures MethodsLabels(ms[..k]) + MethodLabels(ms[k]) <= MethodsLabels(ms)
  {
    TranslateLemmas.MethodsLabelsGrow(ms, k, 0);
    MethodsLabelsMono(ms, k + 1, |ms|);
    assert ms[..|ms|] == ms;
  }

  lemma {:induction false} ClassesLabelsMono(cs: seq<Ast.Class>, i: nat, j: nat)
    requires i <= j <= |cs|
    ensures ClassesLabels(cs[..i]) <= ClassesLabels(cs[..j])
    decreases j - i
  {
    if i < j {
      ClassesLabelsMono(cs, i, j - 1);
      assert cs[..j][..j - 1] == cs[..j - 1];
    }
  }

  /** Where the code of the k-th method of the i-th class takes its labels
      from, when the classes start at `lab`. */
  function MethodBase(cs: seq<Ast.Class>, lab: Label, i: nat, k: nat): Label
    requires i < |cs| && k < |cs[i].methods|
  {
    lab + ClassesLabels(cs[..i]) + MethodsLabels(cs[i].methods[..k])
  }

  /** The counter is shared by the whole program, so no label is placed in
      methods of two different classes either. */
  lemma ClassLabelsDisjoint(cs: seq<Ast.Class>, lab: Label, i: nat, k: nat, j: nat, h: nat, l: Label)
    requires i < |cs| && k < |cs[i].methods| && j < |cs| && h < |cs[j].methods| && i != j
    ensures MarksOf(MethodCode(cs[i].methods[k], cs[i].id, MethodBase(cs, lab, i, k)), l) == 0
         || MarksOf(MethodCode(cs[j].methods[h], cs[j].id, MethodBase(cs, lab, j, h)), l) == 0
  {
    MethodLabelsOk(cs[i].methods[k], cs[i].id, MethodBase(cs, lab, i, k));
    MethodLabelsOk(cs[j].methods[h], cs[j].id, MethodBase(cs, lab, j, h));
    MethodLabelsWithin(cs[i].methods, k);
    MethodLabelsWithin(cs[j].methods, h);
    if i < j {
      TranslateLemmas.ClassesLabelsGrow(cs, i, lab);
      ClassesLabelsMono(cs, i + 1, j);
    } else {
      TranslateLemmas.ClassesLabelsGrow(cs, j, lab);
      ClassesLabelsMono(cs, j + 1, i);
    }
  }

  /** The program: translated iff the main statement resolves against the
      visitor's table and every method of every class resolves, and then
      there is one translated class per class. */
  lemma ProgramSpecIff(p: Ast.Program, classId: string, t: Table, prefix: seq<Instr>, lab: Label)
    ensures ProgramSpec(p, classId, t, prefix, lab).Some? <==>
      StmResolves(p.mainClass.stm, t) && AllMethodsResolve(p.classes)
  {
    var r, m, cs := ProgramSpec(p, classId, t, prefix, lab), MainSpec(p.mainClass, classId, t, prefix, lab),
      ClassesSpec(p.classes, lab + StmLabels(p.mainClass.stm));
    ProgramSpecParts(p, classId, t, prefix, lab);
    assert r.Some? <==> m.Some? && cs.Some?;
    MainSpecIff(p.mainClass, classId, t, prefix, lab);
    assert m.Some? <==> StmResolves(p.mainClass.stm, t);
    ClassesSomeIff(p.classes, lab + StmLabels(p.mainClass.stm));
    assert cs.Some? <==> AllMethodsResolve(p.classes);
  }

  /** The first half of ClassesSpecIff on its own. */
  lemma ClassesSomeIff(cs: seq<Ast.Class>, lab: Label)
    ensures ClassesSpec(cs, lab).Some? <==> AllMethodsResolve(cs)
  {
    ClassesSpecIff(cs, lab);
  }

  lemma ProgramSpecParts(p: Ast.Program, classId: string, t: Table, prefix: seq<Instr>, lab: Label)
    ensures ProgramSpec(p, classId, t, prefix, lab).Some? <==>
      MainSpec(p.mainClass, classId, t, prefix, lab).Some? && ClassesSpec(p.classes, lab + StmLabels(p.mainClass.stm)).Some?
    ensures ProgramSpec(p, classId, t, prefix, lab).Some? ==>
      ProgramSpec(p, classId, t, prefix, lab).value.classes == ClassesSpec(p.classes, lab + StmLabels(p.mainClass.stm)).value
  {
  }

  lemma MainSpecIff(c: Ast.MainClass, classId: string, t: Table, prefix: seq<Instr>, lab: Label)
    ensures MainSpec(c, classId, t, prefix, lab).Some? <==> StmResolves(c.stm, t)
  {
  }

  /** The main class's labels come before all of the classes' labels. */
  lemma MainLabelsFirst(p: Ast.Program, t: Table, lab: Label, i: nat, k: nat, l: Label)
    requires i < |p.classes| && k < |p.classes[i].methods|
    ensures MarksOf(StmCode(p.mainClass.stm, NULL_CLASS_ID, t, lab), l) == 0
         || MarksOf(MethodCode(p.classes[i].methods[k], p.classes[i].id,
                               MethodBase(p.classes, lab + StmLabels(p.mainClass.stm), i, k)), l) == 0
  {
    var m, b := p.classes[i].methods[k], MethodBase(p.classes, lab + StmLabels(p.mainClass.stm), i, k);
    StmLabelsOk(p.mainClass.stm, NULL_CLASS_ID, t, lab);
    MethodLabelsOk(m, p.classes[i].id, b);
    Separate(StmCode(p.mainClass.stm, NULL_CLASS_ID, t, lab), lab, StmLabels(p.mainClass.stm),
             MethodCode(m, p.classes[i].id, b), b, MethodLabels(m), l);
  }
}
