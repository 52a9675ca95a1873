/** The POST handler of src/pages/api/generate.ts without its HTTP transport:
    resetting the name counters, admitting frames, naming and rendering each
    admitted frame, and assembling the index page. */
module Generate {
  import opened Seqs
  import opened Text
  import opened DesignTree
  import opened Convert
  import opened Naming
  import opened Templates

  /** One entry of `sections`. */
  datatype Section = Section(
    id: string,
    originalName: string,
    componentName: string,
    componentType: string,
    texts: seq<string>,
    code: Template)

  /** The categories of which a run keeps only the first instance. */
  const DedupTypes: set<string> := {"Card", "Blog", "Testimonial"}

  /** The section the loop pushes for an admitted frame named `name`. */
  function MakeSection(f: ProcessedFrame, name: string): Section
  {
    Section(f.id, f.name, name, f.componentType, f.texts, GenerateAstroCode(f.componentType, name, f.texts))
  }

  // ----- The admission loop as a fold -----

  /** The loop's state: the `seenTypes` set, the counters, the `sections`. */
  datatype RunState = RunState(seen: set<string>, counters: map<string, nat>, sections: seq<Section>)

  /** One iteration of the `processedFrames.forEach` callback. */
  function Step(st: RunState, f: ProcessedFrame): RunState
  {
    if f.shouldSkip then st
    else if f.componentType in DedupTypes && f.componentType in st.seen then st
    else
      var seen := if f.componentType in DedupTypes then st.seen + {f.componentType} else st.seen;
      var k := CounterOf(st.counters, f.componentType) + 1;
      RunState(seen, st.counters[f.componentType := k], st.sections + [MakeSection(f, NameFor(f.componentType, k))])
  }

  /** The state after the first `n` frames, from empty state. */
  function RunUpTo(frames: seq<ProcessedFrame>, n: nat): RunState
    requires n <= |frames|
  {
    if n == 0 then RunState({}, map[], []) else Step(RunUpTo(frames, n - 1), frames[n - 1])
  }

  function Run(frames: seq<ProcessedFrame>): RunState
  {
    RunUpTo(frames, |frames|)
  }

  // ----- Reference: which frames are admitted -----

  /** Frame `i` is admitted: it is not a skipped container and, if its type
      is one of the deduplicated ones, no earlier non-skipped frame has that
      type. */
  predicate Admits(frames: seq<ProcessedFrame>, i: nat)
    requires i < |frames|
  {
    && !frames[i].shouldSkip
    && (frames[i].componentType in DedupTypes ==>
          forall j :: 0 <= j < i && !frames[j].shouldSkip ==> frames[j].componentType != frames[i].componentType)
  }

  /** The indices below `n` of the admitted frames, in increasing order. */
  function AdmittedUpTo(frames: seq<ProcessedFrame>, n: nat): (idx: seq<nat>)
    requires n <= |frames|
    ensures forall k :: 0 <= k < |idx| ==> idx[k] < n
  {
    if n == 0 then [] else AdmittedUpTo(frames, n - 1) + (if Admits(frames, n - 1) then [n - 1] else [])
  }

  /** The deduplicated types met among the first `n` non-skipped frames. */
  function SeenUpTo(frames: seq<ProcessedFrame>, n: nat): set<string>
    requires n <= |frames|
  {
    set j | 0 <= j < n && !frames[j].shouldSkip && frames[j].componentType in DedupTypes :: frames[j].componentType
  }

  function TypesOf(ss: seq<Section>): seq<string>
  {
    seq(|ss|, i requires 0 <= i < |ss| => ss[i].componentType)
  }

  /** Section `s` was built from frame `f`. */
  predicate FromFrame(s: Section, f: ProcessedFrame)
  {
    && s.id == f.id && s.originalName == f.name && s.componentType == f.componentType && s.texts == f.texts
    && s.code == GenerateAstroCode(f.componentType, s.componentName, f.texts)
  }

  /** The admitted indices are increasing, below `n`, and are exactly the
      indices the reference predicate admits. */
  lemma {:induction false} AdmittedIndices(frames: seq<ProcessedFrame>, n: nat)
    requires n <= |frames|
    ensures var idx := AdmittedUpTo(frames, n);
            && (forall k :: 0 <= k < |idx| ==> idx[k] < n && Admits(frames, idx[k]))
            && (forall k, l :: 0 <= k < l < |idx| ==> idx[k] < idx[l])
            && (forall i :: 0 <= i < n && Admits(frames, i) ==> i in idx)
  {
    if n > 0 {
      AdmittedIndices(frames, n - 1);
    }
  }

  /** The fold's `seen` set is the set of deduplicated types met so far. */
  lemma {:induction false} RunSeen(frames: seq<ProcessedFrame>, n: nat)
    requires n <= |frames|
    ensures RunUpTo(frames, n).seen == SeenUpTo(frames, n)
  {
    if n > 0 {
      RunSeen(frames, n - 1);
      var f := frames[n - 1];
      if !f.shouldSkip && f.componentType in DedupTypes {
        assert SeenUpTo(frames, n) == SeenUpTo(frames, n - 1) + {f.componentType};
      } else {
        assert SeenUpTo(frames, n) == SeenUpTo(frames, n - 1);
      }
    }
  }

  /** The fold admits frame `n - 1` exactly when the reference does. */
  lemma StepAdmits(frames: seq<ProcessedFrame>, n: nat)
    requires 0 < n <= |frames|
    ensures var st := RunUpTo(frames, n - 1);
            var f := frames[n - 1];
            Admits(frames, n - 1) <==> !f.shouldSkip && !(f.componentType in DedupTypes && f.componentType in st.seen)
  {
    RunSeen(frames, n - 1);
    var f := frames[n - 1];
    if !f.shouldSkip && f.componentType in DedupTypes && f.componentType in SeenUpTo(frames, n - 1) {
      var j :| 0 <= j < n - 1 && !frames[j].shouldSkip && frames[j].componentType in DedupTypes
               && frames[j].componentType == f.componentType;
      assert !Admits(frames, n - 1);
    }
  }

  /** The sections are built, in order, from exactly the admitted frames. */
  lemma {:induction false} RunSections(frames: seq<ProcessedFrame>, n: nat)
    requires n <= |frames|
    ensures var ss, idx := RunUpTo(frames, n).sections, AdmittedUpTo(frames, n);
            |ss| == |idx| && forall k :: 0 <= k < |ss| ==> FromFrame(ss[k], frames[idx[k]])
  {
    if n > 0 {
      RunSections(frames, n - 1);
      StepAdmits(frames, n);
    }
  }

  /** Each counter holds how many sections of its type have been named. */
  ghost predicate CountsSections(counters: map<string, nat>, ss: seq<Section>)
  {
    forall b :: CounterOf(counters, b) == multiset(TypesOf(ss))[b]
  }

  /** The name of each section is `NameFor` its type and its ordinal among
      the sections of that type (1 for the first). */
  predicate NamedByOrdinal(ss: seq<Section>)
  {
    forall k :: 0 <= k < |ss| ==> NamedAt(ss, k)
  }

  predicate NamedAt(ss: seq<Section>, k: nat)
    requires k < |ss|
  {
    ss[k].componentName == NameFor(ss[k].componentType, Ordinal(TypesOf(ss), k))
  }

  /** How many of `types[0..k]` equal `types[k]`: 1 for the first of its
      type, 2 for the second, and so on. */
  function Ordinal(types: seq<string>, k: nat): nat
    requires k < |types|
  {
    multiset(types[..k + 1])[types[k]]
  }

  lemma OrdinalAppend(types: seq<string>, t: string, k: nat)
    requires k < |types|
    ensures Ordinal(types + [t], k) == Ordinal(types, k)
  {
    assert (types + [t])[..k + 1] == types[..k + 1];
  }

  lemma OrdinalLast(types: seq<string>, t: string)
    ensures Ordinal(types + [t], |types|) == multiset(types)[t] + 1
  {
    assert (types + [t])[..|types| + 1] == types + [t];
  }

  lemma {:induction false} RunCounters(frames: seq<ProcessedFrame>, n: nat)
    requires n <= |frames|
    ensures CountsSections(RunUpTo(frames, n).counters, RunUpTo(frames, n).sections)
  {
    if n > 0 {
      RunCounters(frames, n - 1);
      var st, f := RunUpTo(frames, n - 1), frames[n - 1];
      assert RunUpTo(frames, n) == Step(st, f);
      CountsStep(st, f);
    } else {
      assert TypesOf(RunUpTo(frames, 0).sections) == [];
    }
  }

  /** One step keeps the counters equal to the number of sections of each
      type. */
  lemma CountsStep(st: RunState, f: ProcessedFrame)
    requires CountsSections(st.counters, st.sections)
    ensures CountsSections(Step(st, f).counters, Step(st, f).sections)
  {
    var t := f.componentType;
    if f.shouldSkip || (t in DedupTypes && t in st.seen) {
      StepKeeps(st, f);
    } else {
      var st' := Step(st, f);
      StepAppends(st, f);
      assert st'.counters == st.counters[t := CounterOf(st.counters, t) + 1];
      assert TypesOf(st'.sections) == TypesOf(st.sections) + [t];
      forall b ensures CounterOf(st'.counters, b) == multiset(TypesOf(st'.sections))[b] {
        assert CounterOf(st.counters, b) == multiset(TypesOf(st.sections))[b];
      }
    }
  }

  /** `getUniqueName` as the run uses it: the section that is the k-th of its
      type gets the bare type name for k = 1 and the type followed by k
      after that. */
  lemma {:induction false} RunNames(frames: seq<ProcessedFrame>, n: nat)
    requires n <= |frames|
    ensures NamedByOrdinal(RunUpTo(frames, n).sections)
  {
    if n > 0 {
      RunNames(frames, n - 1);
      RunCounters(frames, n - 1);
      var st, f := RunUpTo(frames, n - 1), frames[n - 1];
      assert RunUpTo(frames, n) == Step(st, f);
      NamesStep(st, f);
    }
  }

  /** One step keeps every name tied to its ordinal, given that the
      counters count the sections so far. */
  lemma NamesStep(st: RunState, f: ProcessedFrame)
    requires NamedByOrdinal(st.sections) && CountsSections(st.counters, st.sections)
    ensures NamedByOrdinal(Step(st, f).sections)
  {
    var t := f.componentType;
    if f.shouldSkip || (t in DedupTypes && t in st.seen) {
      StepKeeps(st, f);
    } else {
      StepAppends(st, f);
      var c := CounterOf(st.counters, t);
      assert c == multiset(TypesOf(st.sections))[t];
      var s := MakeSection(f, NameFor(t, c + 1));
      assert s.componentType == t;
      NamedByOrdinalAppend(st.sections, s);
    }
  }

  /** A step on a frame that is skipped or a repeated deduplicated type
      leaves the state as it was. */
  lemma StepKeeps(st: RunState, f: ProcessedFrame)
    requires f.shouldSkip || (f.componentType in DedupTypes && f.componentType in st.seen)
    ensures Step(st, f) == st
  {
  }

  /** Any other step appends the frame's section under the next ordinal of
      its type. */
  lemma StepAppends(st: RunState, f: ProcessedFrame)
    requires !f.shouldSkip && !(f.componentType in DedupTypes && f.componentType in st.seen)
    ensures Step(st, f).sections
         == st.sections + [MakeSection(f, NameFor(f.componentType, CounterOf(st.counters, f.componentType) + 1))]
  {
  }

  /** Appending the next section of a type under its next ordinal keeps
      every name tied to its ordinal. */
  lemma NamedByOrdinalAppend(ss: seq<Section>, s: Section)
    requires NamedByOrdinal(ss)
    requires s.componentName == NameFor(s.componentType, multiset(TypesOf(ss))[s.componentType] + 1)
    ensures NamedByOrdinal(ss + [s])
  {
    var ss', t := ss + [s], s.componentType;
    var types := TypesOf(ss);
    assert TypesOf(ss') == types + [t];
    forall k | 0 <= k < |ss'|
      ensures NamedAt(ss', k)
    {
      assert NamedAt(ss', k) <==> ss'[k].componentName == NameFor(ss'[k].componentType, Ordinal(types + [t], k));
      if k < |ss| {
        OrdinalAppend(types, t, k);
        assert ss'[k] == ss[k];
        assert NamedAt(ss, k);
      } else {
        assert k == |types|;
        OrdinalLast(types, t);
        assert ss'[k] == s;
      }
    }
  }

  /** No skipped container frame becomes a section. */
  lemma SkippedNeverEmitted(frames: seq<ProcessedFrame>)
    ensures var ss, idx := Run(frames).sections, AdmittedUpTo(frames, |frames|);
            |ss| == |idx| && forall k :: 0 <= k < |ss| ==> idx[k] < |frames| && !frames[idx[k]].shouldSkip
  {
    RunSections(frames, |frames|);
    AdmittedIndices(frames, |frames|);
  }

  /** Sections keep the relative order of the frames they come from. */
  lemma SectionsKeepFrameOrder(frames: seq<ProcessedFrame>)
    ensures var ss, idx := Run(frames).sections, AdmittedUpTo(frames, |frames|);
            |ss| == |idx|
            && (forall k :: 0 <= k < |ss| ==> idx[k] < |frames| && FromFrame(ss[k], frames[idx[k]]))
            && (forall k, l :: 0 <= k < l < |ss| ==> idx[k] < idx[l])
  {
    RunSections(frames, |frames|);
    AdmittedIndices(frames, |frames|);
  }

  /** At most one Card, one Blog and one Testimonial section per run. */
  lemma AtMostOnePerDedupType(frames: seq<ProcessedFrame>)
    ensures var ss := Run(frames).sections;
            forall k, l :: (0 <= k < l < |ss| && ss[k].componentType in DedupTypes)
                             ==> ss[k].componentType != ss[l].componentType
  {
    var ss, idx := Run(frames).sections, AdmittedUpTo(frames, |frames|);
    RunSections(frames, |frames|);
    AdmittedIndices(frames, |frames|);
    forall k, l | 0 <= k < l < |ss| && ss[k].componentType in DedupTypes
      ensures ss[k].componentType != ss[l].componentType
    {
      assert Admits(frames, idx[l]) && idx[k] < idx[l] && !frames[idx[k]].shouldSkip;
    }
  }

  /** The first non-skipped frame of a deduplicated type is always kept, and
      it is the only frame of that type that is. */
  lemma FirstOfDedupTypeIsKept(frames: seq<ProcessedFrame>, i: nat)
    requires i < |frames| && !frames[i].shouldSkip && frames[i].componentType in DedupTypes
    ensures var idx := AdmittedUpTo(frames, |frames|);
            (i in idx) <==> forall j :: 0 <= j < i && !frames[j].shouldSkip ==> frames[j].componentType != frames[i].componentType
  {
    AdmittedIndices(frames, |frames|);
  }

  /** Component names are unique within a run whenever the types carry no
      digits, as every category name produced by the convert route does. */
  lemma NamesUnique(frames: seq<ProcessedFrame>)
    requires forall j :: 0 <= j < |frames| ==> DigitFree(frames[j].componentType)
    ensures var ss := Run(frames).sections;
            forall k, l :: 0 <= k < l < |ss| ==> ss[k].componentName != ss[l].componentName
  {
    var ss, idx := Run(frames).sections, AdmittedUpTo(frames, |frames|);
    RunSections(frames, |frames|);
    RunNames(frames, |frames|);
    var types := TypesOf(ss);
    forall k, l | 0 <= k < l < |ss|
      ensures ss[k].componentName != ss[l].componentName
    {
      var tk, tl := types[k], types[l];
      var ok, ol := Ordinal(types, k), Ordinal(types, l);
      assert NamedAt(ss, k) && NamedAt(ss, l);
      OrdinalPositive(types, k);
      OrdinalPositive(types, l);
      assert DigitFree(tk) && DigitFree(tl) by {
        assert frames[idx[k]].componentType == tk && frames[idx[l]].componentType == tl;
      }
      if tk == tl {
        OrdinalGrows(types, k, l);
      }
      if ss[k].componentName == ss[l].componentName {
        NameForInjective(tk, ok, tl, ol);
      }
    }
  }

  /** The k-th section is at least the first of its type. */
  lemma OrdinalPositive(types: seq<string>, k: nat)
    requires k < |types|
    ensures Ordinal(types, k) >= 1
  {
    assert types[..k + 1][k] == types[k];
  }

  /** A later section of the same type has a larger ordinal. */
  lemma OrdinalGrows(types: seq<string>, k: nat, l: nat)
    requires k < l < |types| && types[k] == types[l]
    ensures Ordinal(types, k) < Ordinal(types, l)
  {
    assert types[..l + 1] == types[..k + 1] + types[k + 1..l + 1];
    assert types[k + 1..l + 1][l - k - 1] == types[l];
  }

  // ----- Page assembly -----

  function ComponentNames(ss: seq<Section>): seq<string>
  {
    seq(|ss|, i requires 0 <= i < |ss| => ss[i].componentName)
  }

  function ImportLine(name: string): string
  {
    "import " + name + " from './components/" + name + ".astro';"
  }

  function TagLine(name: string): string
  {
    "<" + name + " />"
  }

  /** The `imports` string: one import per section, joined by line breaks. */
  function Imports(ss: seq<Section>): string
  {
    Join(Map(ComponentNames(ss), ImportLine), "\n")
  }

  /** The `components` string: one tag per section, joined by a line break
      and two spaces of indentation. */
  function Components(ss: seq<Section>): string
  {
    Join(Map(ComponentNames(ss), TagLine), "\n  ")
  }

  /** The lines of the `index.astro` page around the given imports and
      tags: the imports in the frontmatter, the tags in the page's container. */
  function PageLines(imports: string, components: string): seq<string>
  {
    [ "---",
      imports,
      "---",
      "",
      "<html lang=\"en\">",
      "  <head>",
      "    <meta charset=\"utf-8\" />",
      "    <link rel=\"icon\" type=\"image/svg+xml\" href=\"/favicon.svg\" />",
      "    <meta name=\"viewport\" content=\"width=device-width, initial-scale=1.0\" />",
      "    <meta name=\"generator\" content={Astro.generator} />",
      "    <title>Generated from Figma</title>",
      "    <script src=\"https://cdn.tailwindcss.com\"></script>",
      "  </head>",
      "  <body class=\"bg-gray-100 min-h-screen\">",
      "    <div class=\"container mx-auto px-4 py-8\">",
      "      " + components,
      "    </div>",
      "  </body>",
      "</html>" ]
  }

  /** The `index.astro` page. */
  function IndexPage(imports: string, components: string): string
  {
    Join(PageLines(imports, components), "\n")
  }

  function IndexFile(ss: seq<Section>): string
  {
    IndexPage(Imports(ss), Components(ss))
  }

  lemma ImportLineOneLine(name: string)
    requires '\n' !in name
    ensures '\n' !in ImportLine(name)
  {
  }

  lemma TagLineOneLine(name: string)
    requires '\n' !in name
    ensures '\n' !in TagLine(name)
  {
  }

  /** Read back line by line, the imports are one import per section, in
      section order. */
  lemma ImportsInOrder(ss: seq<Section>)
    requires |ss| > 0
    requires forall k :: 0 <= k < |ss| ==> '\n' !in ss[k].componentName
    ensures Split(Imports(ss), '\n') == Map(ComponentNames(ss), ImportLine)
  {
    var names := ComponentNames(ss);
    var lines := Map(names, ImportLine);
    forall i | 0 <= i < |lines| ensures '\n' !in lines[i] {
      ImportLineOneLine(names[i]);
    }
    assert "\n" == ['\n'] + "";
    SplitJoin(lines, '\n', "");
    var back := [lines[0]] + seq(|lines| - 1, i requires 0 <= i < |lines| - 1 => "" + lines[i + 1]);
    assert forall i :: 0 <= i < |lines| ==> back[i] == lines[i];
    assert back == lines;
  }

  /** Read back line by line, the page body holds one tag per section, in
      section order; every tag after the first is indented by two spaces. */
  lemma ComponentsInOrder(ss: seq<Section>)
    requires |ss| > 0
    requires forall k :: 0 <= k < |ss| ==> '\n' !in ss[k].componentName
    ensures var tags := Map(ComponentNames(ss), TagLine);
            Split(Components(ss), '\n') == [tags[0]] + seq(|ss| - 1, i requires 0 <= i < |ss| - 1 => "  " + tags[i + 1])
  {
    var names := ComponentNames(ss);
    var tags := Map(names, TagLine);
    forall i | 0 <= i < |tags| ensures '\n' !in tags[i] {
      TagLineOneLine(names[i]);
    }
    assert "\n  " == ['\n'] + "  ";
    SplitJoin(tags, '\n', "  ");
  }

  /** Two sections import the same module only if they have the same name. */
  lemma ImportLineInjective(a: string, b: string)
    requires ImportLine(a) == ImportLine(b)
    ensures a == b
  {
    var la, lb := ImportLine(a), ImportLine(b);
    assert |la| == 2 * |a| + 35 && |lb| == 2 * |b| + 35;
    assert a == la[7..7 + |a|];
    assert b == lb[7..7 + |b|];
  }

  /** With no section, the page has no imports and no tags. */
  lemma EmptyPage()
    ensures Imports([]) == "" && Components([]) == ""
  {
  }

  // ----- The route -----

  datatype Stats = Stats(totalFrames: nat, generatedComponents: nat, skippedFrames: nat)

  datatype GenerateResponse =
    | GenerateError(status: nat, message: string)
    | Generated(totalComponents: nat, sections: seq<Section>, indexFile: string, stats: Stats)

  predicate IsSkipped(f: ProcessedFrame)
  {
    f.shouldSkip
  }

  /** What POST /api/generate answers for a request body whose
      `processedFrames` is the given array (None when it is missing or not
      an array). */
  function GenerateSpec(processedFrames: Option<seq<ProcessedFrame>>): GenerateResponse
  {
    if processedFrames.None? then GenerateError(400, "No processed frames data provided")
    else
      var frames := processedFrames.value;
      var ss := Run(frames).sections;
      Generated(|ss|, ss, IndexFile(ss), Stats(|frames|, |ss|, |Filter(frames, IsSkipped)|))
  }

  /** The frames neither skipped nor admitted: later duplicates of a
      deduplicated type. */
  function DroppedUpTo(frames: seq<ProcessedFrame>, n: nat): nat
    requires n <= |frames|
  {
    if n == 0 then 0
    else DroppedUpTo(frames, n - 1) + (if !frames[n - 1].shouldSkip && !Admits(frames, n - 1) then 1 else 0)
  }

  /** Every frame is exactly one of: generated, skipped as a container, or
      dropped as a repeated Card, Blog or Testimonial. */
  lemma {:induction false} FramesAccountedFor(frames: seq<ProcessedFrame>, n: nat)
    requires n <= |frames|
    ensures |AdmittedUpTo(frames, n)| + |Filter(frames[..n], IsSkipped)| + DroppedUpTo(frames, n) == n
  {
    if n > 0 {
      FramesAccountedFor(frames, n - 1);
      assert frames[..n][..n - 1] == frames[..n - 1];
    }
  }

  /** The statistics add up: generated plus skipped frames never exceed the
      frames received, and fall short by the dropped duplicates. */
  lemma StatsAddUp(processedFrames: seq<ProcessedFrame>)
    ensures var r := GenerateSpec(Some(processedFrames));
            r.Generated? && r.totalComponents == r.stats.generatedComponents == |r.sections|
            && r.stats.generatedComponents + r.stats.skippedFrames + DroppedUpTo(processedFrames, |processedFrames|)
               == r.stats.totalFrames
  {
    FramesAccountedFor(processedFrames, |processedFrames|);
    RunSections(processedFrames, |processedFrames|);
    assert processedFrames[..|processedFrames|] == processedFrames;
  }

  /** Two counter maps agree on every base, absent keys counting as zero. */
  ghost predicate SameCounts(a: map<string, nat>, b: map<string, nat>)
  {
    forall x :: CounterOf(a, x) == CounterOf(b, x)
  }

  lemma SameCountsBump(a: map<string, nat>, b: map<string, nat>, t: string)
    requires SameCounts(a, b)
    ensures SameCounts(a[t := CounterOf(a, t) + 1], b[t := CounterOf(b, t) + 1])
  {
    var a', b' := a[t := CounterOf(a, t) + 1], b[t := CounterOf(b, t) + 1];
    forall x ensures CounterOf(a', x) == CounterOf(b', x) {
      assert CounterOf(a, x) == CounterOf(b, x);
    }
  }

  lemma CountsTransfer(a: map<string, nat>, b: map<string, nat>, ss: seq<Section>)
    requires SameCounts(a, b) && CountsSections(b, ss)
    ensures CountsSections(a, ss)
  {
    forall x ensures CounterOf(a, x) == multiset(TypesOf(ss))[x] {
      assert CounterOf(a, x) == CounterOf(b, x);
    }
  }

  /** The module-level `componentCounters` object and the route around it. */
  class Generator {
    var counters: map<string, nat>

    constructor ()
      ensures counters == map[]
    {
      counters := map[];
    }

    /** `getUniqueName(base)`: bump the base's counter and name by it. */
    method GetUniqueName(base: string) returns (name: string)
      modifies this
      ensures counters == old(counters)[base := CounterOf(old(counters), base) + 1]
      ensures name == NameFor(base, counters[base])
    {
      var k := CounterOf(counters, base) + 1;
      counters := counters[base := k];
      name := NameFor(base, k);
    }

    /** The reset at the start of each request: every existing key back to
        zero, no key added or removed. */
    method ResetCounters()
      modifies this
      ensures counters == map b | b in old(counters) :: 0
    {
      var keys := counters.Keys;
      while keys != {}
        invariant keys <= counters.Keys && counters.Keys == old(counters).Keys
        invariant forall b :: b in counters && b !in keys ==> counters[b] == 0
        decreases keys
      {
        var key :| key in keys;
        counters := counters[key := 0];
        keys := keys - {key};
      }
    }

    /** POST /api/generate. With counters that hold only their own keys
        the answer depends on the request alone: the counters left by
        earlier requests are reset before use. (On the plain object of the
        code as written this fails for inherited member names; see
        `Naming.PrototypeNamesDependOnHistory`.) */
    method Post(processedFrames: Option<seq<ProcessedFrame>>) returns (r: GenerateResponse)
      modifies this
      ensures r == GenerateSpec(processedFrames)
      ensures processedFrames.None? ==> counters == map b | b in old(counters) :: 0
      ensures processedFrames.Some? ==> r.Generated? && CountsSections(counters, r.sections)
    {
      ResetCounters();
      if processedFrames.None? {
        return GenerateError(400, "No processed frames data provided");
      }
      var frames := processedFrames.value;
      var sections: seq<Section> := [];
      var seenTypes: set<string> := {};
      var i := 0;
      while i < |frames|
        invariant 0 <= i <= |frames|
        invariant seenTypes == RunUpTo(frames, i).seen
        invariant sections == RunUpTo(frames, i).sections
        invariant SameCounts(counters, RunUpTo(frames, i).counters)
      {
        assert RunUpTo(frames, i + 1) == Step(RunUpTo(frames, i), frames[i]);
        var frame := frames[i];
        var t := frame.componentType;
        if frame.shouldSkip {
          // a container frame: skipped
        } else if t in DedupTypes && t in seenTypes {
          // a repeated Card, Blog or Testimonial: dropped
        } else {
          if t in DedupTypes {
            seenTypes := seenTypes + {t};
          }
          SameCountsBump(counters, RunUpTo(frames, i).counters, t);
          var uniqueName := GetUniqueName(t);
          var code := GenerateAstroCode(t, uniqueName, frame.texts);
          sections := sections + [Section(frame.id, frame.name, uniqueName, t, frame.texts, code)];
        }
        i := i + 1;
      }
      assert sections == Run(frames).sections;
      RunCounters(frames, |frames|);
      CountsTransfer(counters, Run(frames).counters, sections);
      var imports := Imports(sections);
      var components := Components(sections);
      var indexFile := IndexPage(imports, components);
      r := Generated(|sections|, sections, indexFile,
                     Stats(|frames|, |sections|, |Filter(frames, IsSkipped)|));
    }
  }
}
