/** The two routes chained as the front end chains them: the frames that
    POST /api/convert returns are the `processedFrames` that POST
    /api/generate receives. */
module Pipeline {
  import opened Seqs
  import opened Text
  import opened DesignTree
  import opened Classifier
  import opened Convert
  import opened Naming
  import opened Templates
  import opened Generate

  /** Every type the convert route emits is a category name, so it carries
      neither a digit nor a line break. */
  lemma ConvertedTypesAreWords(frames: seq<Node>)
    ensures var ps := ProcessFrames(frames);
            forall i :: 0 <= i < |ps| ==> DigitFree(ps[i].componentType) && '\n' !in ps[i].componentType
  {
    var ps := ProcessFrames(frames);
    forall i | 0 <= i < |ps|
      ensures DigitFree(ps[i].componentType) && '\n' !in ps[i].componentType
    {
      var c := GetComponentType(frames[i].name);
      CategoryNameIsWord(c);
    }
  }

  /** No type the convert route emits names an inherited object member, so
      for converted frames every call of `getUniqueName` as written agrees
      with the model (`Naming.AgreesOffPrototype`). */
  lemma ConvertedTypesOffPrototype(frames: seq<Node>)
    ensures var ps := ProcessFrames(frames);
            forall i :: 0 <= i < |ps| ==> ps[i].componentType !in PrototypeMembers
  {
    var ps := ProcessFrames(frames);
    forall i | 0 <= i < |ps|
      ensures ps[i].componentType !in PrototypeMembers
    {
      CategoryNameOffPrototype(GetComponentType(frames[i].name));
    }
  }

  /** Category names are capitalised; no inherited object member is. */
  lemma CategoryNameOffPrototype(c: Category)
    ensures CategoryName(c) !in PrototypeMembers
  {
    var n := CategoryName(c);
    assert 'A' <= n[0] <= 'Z';
    forall m | m in PrototypeMembers
      ensures |m| > 0 && !('A' <= m[0] <= 'Z')
    {
    }
  }

  /** Generating from converted frames never produces two components with
      the same name, so no two files under `components/` clash. */
  lemma ConvertedNamesUnique(frames: seq<Node>)
    ensures var ss := Run(ProcessFrames(frames)).sections;
            forall k, l :: 0 <= k < l < |ss| ==> ss[k].componentName != ss[l].componentName
  {
    ConvertedTypesAreWords(frames);
    NamesUnique(ProcessFrames(frames));
  }

  /** For converted frames, the index page's import block reads back, line
      by line, as one import per generated component, in order. */
  lemma ConvertedImportsReadBack(frames: seq<Node>)
    ensures var ss := Run(ProcessFrames(frames)).sections;
            |ss| > 0 ==> Split(Imports(ss), '\n') == Map(ComponentNames(ss), ImportLine)
  {
    var ps := ProcessFrames(frames);
    var ss := Run(ps).sections;
    if |ss| > 0 {
      ConvertedTypesAreWords(frames);
      RunSections(ps, |ps|);
      RunNames(ps, |ps|);
      forall k | 0 <= k < |ss| ensures '\n' !in ss[k].componentName {
        var idx := AdmittedUpTo(ps, |ps|);
        assert ss[k].componentType == ps[idx[k]].componentType;
        assert NamedAt(ss, k);
        NameForOneLine(ss[k].componentType, Ordinal(TypesOf(ss), k));
      }
      ImportsInOrder(ss);
    }
  }

  function Frame(name: string, texts: seq<string>): ProcessedFrame
  {
    ProcessedFrame(name, name, "Gallery", texts, false, false)
  }

  /** Three gallery frames become Gallery, Gallery2 and Gallery3. */
  lemma ThreeGalleries()
    ensures var ss := Run([Frame("a", ["x"]), Frame("b", ["y"]), Frame("c", ["z"])]).sections;
            |ss| == 3 && ss[0].componentName == "Gallery" && ss[1].componentName == "Gallery2"
            && ss[2].componentName == "Gallery3"
  {
    var frames := [Frame("a", ["x"]), Frame("b", ["y"]), Frame("c", ["z"])];
    ThirdGallery();
    assert RunUpTo(frames, 1).counters == map["Gallery" := 1];
    assert RunUpTo(frames, 2).counters == map["Gallery" := 2];
  }

  /** Of two testimonial frames only the first is rendered, with its own
      texts and the bare type as its name. */
  lemma SecondTestimonialDropped()
    ensures var f1 := ProcessedFrame("1", "Quote A", "Testimonial", ["first"], false, false);
            var f2 := ProcessedFrame("2", "Quote B", "Testimonial", ["second"], false, false);
            var ss := Run([f1, f2]).sections;
            |ss| == 1 && ss[0].id == "1" && ss[0].texts == ["first"] && ss[0].componentName == "Testimonial"
  {
    var f1 := ProcessedFrame("1", "Quote A", "Testimonial", ["first"], false, false);
    var f2 := ProcessedFrame("2", "Quote B", "Testimonial", ["second"], false, false);
    assert RunUpTo([f1, f2], 1).seen == {"Testimonial"};
  }

  /** A skipped container counts in the statistics and nowhere else. */
  lemma SkippedContainerCounted()
    ensures var container := ProcessedFrame("0", "Page", "Card", [], true, true);
            var hero := ProcessedFrame("1", "Hero", "Hero", ["Hi"], false, false);
            var ss := Run([container, hero]).sections;
            |ss| == 1 && ss[0].id == "1" && ss[0].componentName == "Hero"
            && GenerateSpec(Some([container, hero])).stats == Stats(2, 1, 1)
  {
    var container := ProcessedFrame("0", "Page", "Card", [], true, true);
    var hero := ProcessedFrame("1", "Hero", "Hero", ["Hi"], false, false);
    var frames := [container, hero];
    assert RunUpTo(frames, 1) == RunState({}, map[], []);
    assert |Run(frames).sections| == 1;
    assert Filter(frames, IsSkipped) == [container] by {
      assert frames[..1] == [container];
      assert frames[..0] == [];
    }
  }

  /** Outside the category names, the names are not unique: types "Hero2",
      "Hero", "Hero" (which the generate route accepts from any client) name
      the first and third components both "Hero2". */
  lemma DigitTypesCollide()
    ensures var ss := Run([ProcessedFrame("a", "a", "Hero2", ["x"], false, false),
                           ProcessedFrame("b", "b", "Hero", ["x"], false, false),
                           ProcessedFrame("c", "c", "Hero", ["x"], false, false)]).sections;
            |ss| == 3 && ss[0].componentName == ss[2].componentName == "Hero2"
  {
    var frames := [ProcessedFrame("a", "a", "Hero2", ["x"], false, false),
                   ProcessedFrame("b", "b", "Hero", ["x"], false, false),
                   ProcessedFrame("c", "c", "Hero", ["x"], false, false)];
    assert "Hero2" != "Hero";
    assert RunUpTo(frames, 1).counters == map["Hero2" := 1];
    assert RunUpTo(frames, 2).counters == map["Hero2" := 1, "Hero" := 1];
    assert Digits(2) == "2";
    assert RunUpTo(frames, 3).sections[2].componentName == NameFor("Hero", 2);
  }

  /** With counters that hold only their own keys, two "toString" frames
      are named "toString" and "toString2". */
  lemma PrototypeTypesNamedApart()
    ensures var ss := Run([ProcessedFrame("a", "a", "toString", ["x"], false, false),
                           ProcessedFrame("b", "b", "toString", ["y"], false, false)]).sections;
            |ss| == 2 && ss[0].componentName == "toString" && ss[1].componentName == "toString2"
  {
    var frames := [ProcessedFrame("a", "a", "toString", ["x"], false, false),
                   ProcessedFrame("b", "b", "toString", ["y"], false, false)];
    assert RunUpTo(frames, 1).counters == map["toString" := 1];
    assert Digits(2) == "2";
  }
}
