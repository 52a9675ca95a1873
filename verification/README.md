# Design-to-Astro converter: a verified model of its two API routes

The site turns a Figma design into a set of Astro components in two steps:

- **POST /api/convert** (`src/pages/api/convert.ts`) reads a file key out of the design URL. It fetches the document, walks it for FRAME nodes and gathers the text below each frame. It classifies each frame by keywords in its name and marks pure layout containers to be skipped.
- **POST /api/generate** (`src/pages/api/generate.ts`) takes those processed frames. It drops the skipped containers and every Card, Blog or Testimonial after the first. It gives each remaining frame a unique component name from a per-type counter, renders a template for it, and assembles an `index.astro` page that imports and places every component in order.

This project models both routes in Dafny and proves what they promise.

The model keeps the source's form:

- The pure helpers (`collectTextNodes`, which recurses over the tree, `getComponentType`, the URL match and `generateAstroCode`) are functions over datatypes.
- `flattenFrames`, which pushes into a caller-owned array, is a method of the `FrameCollector` class whose `frames` field it extends.
- The module-level `componentCounters` object is the `counters` field of the `Generator` class. `getUniqueName` and the reset are methods on it. The class keeps only the keys the route sets. The plain object of the code, which also inherits `Object.prototype`'s members, is modelled beside it (see Findings).
- The `forEach` admission loop is a `while` loop in `Generator.Post`. It is proved equal to a fold (`Generate.Run`), and the fold is proved against an independent description of which frames are admitted (`Generate.Admits`).

Files:

- `seqs.dfy`: filtering and mapping.
- `text.dfy`: `toLowerCase`, `includes`, `join`, `split`, decimal rendering.
- `tree.dfy`: the document tree and the two walkers.
- `classify.dfy`: the keyword classifier.
- `convert.dfy`: the convert route.
- `templates.dfy`: the component templates.
- `naming.dfy`: the counter naming scheme.
- `generate.dfy`: the generate route.
- `pipeline.dfy`: the two routes chained, plus concrete scenarios.

## Model

| member | source | states |
|---|---|---|
| DesignTree.TextsOf | src/pages/api/convert.ts:32-38 | the texts of a subtree are the `characters` of its non-empty TEXT nodes, in depth-first pre-order |
| DesignTree.CollectTextNodes | src/pages/api/convert.ts:32-38 | a null node gives no text; otherwise the pre-order TEXT characters, none of them empty |
| DesignTree.FrameCollector.constructor | src/pages/api/convert.ts:109 | the frame list starts empty |
| DesignTree.FrameCollector.Flatten | src/pages/api/convert.ts:40-44 | appends exactly the FRAME nodes of the tree, in pre-order, after what the list already held; a null node appends nothing |
| DesignTree.FrameCollector.FlattenNode | src/pages/api/convert.ts:42-43 | one node: itself if it is a FRAME, then each child's frames in child order (loop invariant over the children done so far) |
| DesignTree.FramesIn | src/pages/api/convert.ts:40-44 | the recursion of `flattenFrames` on one node: the node if it is a FRAME, then its children's frames; DesignTree.FramesInIsFilter states what it collects |
| DesignTree.FramesInAll | src/pages/api/convert.ts:43 | the children's frames in child order; DesignTree.FramesInAllIsFilter states what it collects |
| DesignTree.FramesInIsFilter | src/pages/api/convert.ts:40-44 | the recursive walk's frames are the FRAME nodes of the subtree in pre-order |
| DesignTree.FramesInAllIsFilter | src/pages/api/convert.ts:43 | the same for a list of children walked in order |
| DesignTree.FlattenedAreExactlyTheFrames | src/pages/api/convert.ts:40-44 | every collected node is a FRAME of the tree and every FRAME of the tree is collected |
| Classifier.CategoryName | src/pages/api/convert.ts:48-57 | the ten strings the classifier returns, one per category; Classifier.CategoryNameIsWord and Classifier.CategoryNameInjective state what they are |
| Classifier.GetComponentType | src/pages/api/convert.ts:46-58 | the result is the first keyword group, in the route's test order, that the lower-cased name contains; Card when none does |
| Classifier.FirstMentionIsUnique | src/pages/api/convert.ts:48-57 | those two conditions determine the category uniquely |
| Classifier.CaseInsensitive | src/pages/api/convert.ts:47 | names equal after lower-casing get the same category |
| Classifier.HeroHeaderIsNavbar | src/pages/api/convert.ts:48-49 | "header" is tested before "hero": "Hero Header" is a Navbar |
| Classifier.NoKeywordIsCard | src/pages/api/convert.ts:57 | a name with no keyword is a Card |
| Classifier.CategoryNameIsWord | src/pages/api/convert.ts:48-57 | none of the ten emitted type strings holds a digit or a line break |
| Classifier.CategoryNameInjective | src/pages/api/convert.ts:48-57 | the ten emitted type strings are pairwise distinct |
| Text.ToLower | src/pages/api/convert.ts:47 | same length; no capital letter is left; each ASCII capital becomes its small letter and every other character is kept |
| Text.Contains | src/pages/api/convert.ts:48-56 | `includes`: the keyword is a prefix of the name or of one of its suffixes; Text.ContainsIffOccurs gives the positional reading |
| Text.ContainsIffOccurs | src/pages/api/convert.ts:48-56 | `includes` holds iff the keyword occurs at some position of the name |
| Text.StartsWithIsPrefix | src/pages/api/convert.ts:48-56 | the per-character prefix test agrees with slicing |
| Convert.AnyFrame | src/pages/api/convert.ts:116 | true iff some direct child is a FRAME |
| Convert.ProcessFrame | src/pages/api/convert.ts:113-127 | keeps id and name; type is the classifier's category; texts are the frame's collected texts; hasChildFrames iff a direct child is a FRAME; shouldSkip iff there is no text and hasChildFrames |
| Convert.ProcessFrames | src/pages/api/convert.ts:113 | one processed frame per frame, position by position |
| Convert.SkipMeansEmptyContainer | src/pages/api/convert.ts:124 | a frame is skipped iff no node below it has text and a direct child is a frame |
| Convert.KeyRun | src/pages/api/convert.ts:84 | the greedy `[a-zA-Z0-9]+` run: the longest alphanumeric prefix |
| Convert.FindKey | src/pages/api/convert.ts:84 | scans from a position: None iff no `/file/` or `/design/` match with a non-empty key starts at or after it; otherwise the key of such a match |
| Convert.ExtractFileKey | src/pages/api/convert.ts:84-92 | None iff the URL has no match; otherwise the key of the leftmost match, non-empty and alphanumeric |
| Convert.FirstMatchFound | src/pages/api/convert.ts:84-92 | the key returned is that of the leftmost match |
| Convert.FileUrlRoundTrip | src/pages/api/convert.ts:84-92 | `https://www.figma.com/file/KEY...` yields KEY whenever KEY is alphanumeric and is not followed by one |
| Convert.DesignUrlRoundTrip | src/pages/api/convert.ts:84-92 | the same for `/design/` URLs |
| Convert.NoMatchInHost | src/pages/api/convert.ts:84 | no match starts inside the `https://www.figma.com` prefix |
| Convert.KeyRunOf | src/pages/api/convert.ts:84 | the key run of an alphanumeric key followed by a non-key character is that key |
| Convert.FramesOf | src/pages/api/convert.ts:109-110 | `allFrames`: the FRAME nodes of the document in pre-order, nothing for a missing document; DesignTree.FrameCollector.Flatten is proved to build exactly this list |
| Convert.ConvertPost | src/pages/api/convert.ts:72-140 | a missing or empty URL gives 400 "No Figma URL provided"; no key gives 400 "Invalid Figma URL"; a failed fetch gives 500 "Figma API error STATUS: TEXT"; otherwise the key, the frame count and the processed frames in pre-order |
| Seqs.FilterAppend | src/pages/api/convert.ts:43 | filtering distributes over concatenation |
| Convert.NoneKeptMeansEmpty | src/pages/api/convert.ts:124 | a filter keeps nothing iff no element passes it; used for `texts.length === 0` |
| Seqs.FilterMembers | src/pages/api/generate.ts:278 | every kept element is from the input and satisfies the predicate |
| Templates.WithFallback | src/pages/api/generate.ts:14 | never empty; non-empty texts are kept as they are |
| Templates.Pick | src/pages/api/generate.ts:28-30 | `texts[i] \|\| dflt`: the i-th text when it exists and is non-empty, the default otherwise |
| Templates.Slice | src/pages/api/generate.ts:45 | `slice(from, to)`: at most to - from entries; within bounds exactly s[from..to] |
| Templates.Paragraphs | src/pages/api/generate.ts:138-141 | one to three paragraphs; the literal line when there is at most one text, otherwise starting with the second text |
| Templates.SectionDescription | src/pages/api/generate.ts:157 | the default branch's line "This is a {type lower-cased} section with some content."; Templates.BodyParagraphs states where it is used |
| Templates.GenerateAstroCode | src/pages/api/generate.ts:13-166 | the root id is the component name; the template matches the type, with the default section for any other type; a Footer has at most 6 links, a Gallery at most 8 captions, and Card and section bodies have 1 to 3 paragraphs |
| Templates.FragmentsComeFromInput | src/pages/api/generate.ts:13-166 | every bound string is one of the frame's texts, the component name, or fixed fallback copy of the frame's own type: the Hero's subtitle and button, the Testimonial's, Newsletter's and CTA's defaults, the Card's description, the default section's line, and none for Navbar, Footer and Gallery |
| Templates.NavbarLinks | src/pages/api/generate.ts:14-18 | one link per text in order; with no text, one link labelled with the name |
| Templates.FooterLinks | src/pages/api/generate.ts:44-45 | the first min(6, n) texts, in order |
| Templates.GalleryCaptions | src/pages/api/generate.ts:59-65 | the first min(8, n) texts, in order |
| Templates.BodyParagraphs | src/pages/api/generate.ts:136-157 | Card and default sections show texts 2 to 4, or their literal line when there is no second text |
| Templates.EmptyTextsFallback | src/pages/api/generate.ts:14-157 | with no texts each template binds the name as its first field and the fixed copy elsewhere |
| Templates.ScalarFieldsFromTexts | src/pages/api/generate.ts:28-154 | with at least one text, every single-valued field of Hero, Testimonial, Newsletter, CTA, Card and the default section shows its text j when that text exists and is non-empty, and its own default (the name for the Hero, Card and section titles) otherwise |
| Templates.ScalarFieldsNonEmpty | src/pages/api/generate.ts:28-154 | with a non-empty name, every field taken from a text or its default is non-empty |
| Text.Digits | src/pages/api/generate.ts:10 | `${n}`: at least one character, all of them decimal digits; Text.DigitsRoundTrip reads it back |
| Text.DigitsRoundTrip | src/pages/api/generate.ts:10 | the decimal rendering of a counter reads back as the counter |
| Text.DigitsInjective | src/pages/api/generate.ts:10 | different counters render differently |
| Naming.CounterOf | src/pages/api/generate.ts:9 | `componentCounters[base] \|\| 0` on counters that hold only the route's own keys: a base never counted reads 0, any other its stored count; Naming.AgreesOffPrototype ties it to the plain object of the code |
| Naming.NameFor | src/pages/api/generate.ts:10 | the name for count k: the bare base for k = 1, the base followed by `${k}` after that; Naming.NameForShape and Naming.NameForInjective state its properties |
| Naming.NameForShape | src/pages/api/generate.ts:10 | the name starts with the base, and is the bare base exactly when the count is at most 1 |
| Naming.NameForInjective | src/pages/api/generate.ts:8-11 | for digit-free bases the name determines both base and count |
| Naming.NameForOneLine | src/pages/api/generate.ts:8-11 | a name has a line break only if its base does |
| Naming.ThirdGallery | src/pages/api/generate.ts:10 | counts 1, 2 and 3 name "Gallery", "Gallery2" and "Gallery3" |
| Naming.ReadSlot | src/pages/api/generate.ts:6-9 | `componentCounters[base]` on the plain object as written: `__proto__` always reads a non-number; any other own key reads its value, also when it names an inherited member; a missing inherited-member name reads a non-number; any other missing base reads 0 |
| Naming.AsWrittenUniqueName | src/pages/api/generate.ts:8-11 | `getUniqueName` as written: after a non-number read the name is the bare base; after a numeric read c it is NameFor(base, c + 1). The base's slot becomes c + 1, or a non-number after a non-number read; every other slot is kept; for `__proto__` the counters are unchanged |
| Naming.AsWrittenReset | src/pages/api/generate.ts:197-199 | `Object.keys(...).forEach` as written: the same own keys, each set to 0 |
| Naming.AsSlots | src/pages/api/generate.ts:6 | the model's counters as JavaScript slots: the same keys, each a number |
| Naming.AgreesOffPrototype | src/pages/api/generate.ts:8-11 | for a base that is no inherited member, the code as written and the model give the same name and the same counters |
| Naming.ResetAgrees | src/pages/api/generate.ts:197-199 | the reset as written and the model's reset agree |
| Naming.PrototypeNameRepeats | src/pages/api/generate.ts:6-11 | as written, two requests for "toString" both get "toString" |
| Naming.PrototypeNamesDependOnHistory | src/pages/api/generate.ts:6-11 | as written, after an earlier request left "toString" as a key, the same two requests get "toString" and "toString2" |
| Generate.Generator.constructor | src/pages/api/generate.ts:6 | the counters start empty |
| Generate.Generator.GetUniqueName | src/pages/api/generate.ts:8-11 | the base's counter goes up by one, absent counting as 0; the name is the base alone for count 1, else base followed by the count |
| Generate.Generator.ResetCounters | src/pages/api/generate.ts:196-199 | every existing key is set to 0, no key added or removed |
| Generate.Generator.Post | src/pages/api/generate.ts:195-283 | counters reset first; a missing array gives 400 "No processed frames data provided"; otherwise the answer is the fold's sections, their index page and stats, and the counters count the sections per type |
| Generate.MakeSection | src/pages/api/generate.ts:229-239 | the object pushed for an admitted frame: its id, name, type and texts, the unique name, and the rendered template; Generate.RunSections states which frames it is built from |
| Generate.Step | src/pages/api/generate.ts:217-240 | one `forEach` callback on the loop state; Generate.StepKeeps, Generate.StepAppends and Generate.StepAdmits state what it does |
| Generate.Run | src/pages/api/generate.ts:217-240 | the callback folded over all frames from the empty state; Generate.RunSections, Generate.RunNames and Generate.RunCounters state what it yields |
| Generate.GenerateSpec | src/pages/api/generate.ts:195-283 | the route's answer: 400 "No processed frames data provided" without a frame array, otherwise the fold's sections, their index page and the statistics; Generate.Generator.Post is proved equal to it and Generate.StatsAddUp states the statistics |
| Generate.AdmittedUpTo | src/pages/api/generate.ts:217-226 | admitted indices are below the bound |
| Generate.AdmittedIndices | src/pages/api/generate.ts:217-226 | the admitted indices increase and are exactly the frames that are not skipped and, for Card, Blog and Testimonial, have no earlier non-skipped frame of their type |
| Generate.RunSeen | src/pages/api/generate.ts:214-226 | `seenTypes` is the set of deduplicated types among the non-skipped frames so far |
| Generate.StepAdmits | src/pages/api/generate.ts:221-226 | one loop step pushes a section iff the reference admits that frame |
| Generate.RunSections | src/pages/api/generate.ts:217-240 | the sections are built, in order, from exactly the admitted frames, with their id, name, type, texts and rendered code |
| Generate.RunCounters | src/pages/api/generate.ts:229 | each counter equals the number of sections of its type |
| Generate.RunNames | src/pages/api/generate.ts:229 | the section that is the k-th of its type is named `NameFor(type, k)` |
| Generate.StepKeeps | src/pages/api/generate.ts:221-226 | a skipped frame, or a Card, Blog or Testimonial whose type was already seen, leaves the loop state unchanged |
| Generate.StepAppends | src/pages/api/generate.ts:229-239 | any other frame appends its section, named with the type's next count |
| Generate.CountsStep | src/pages/api/generate.ts:9 | one loop step keeps each counter equal to the number of sections of its type |
| Generate.NamesStep | src/pages/api/generate.ts:229-239 | one loop step keeps every section named by its ordinal among sections of its type |
| Generate.OrdinalAppend | src/pages/api/generate.ts:239 | pushing a section does not change the ordinal of an earlier one |
| Generate.OrdinalLast | src/pages/api/generate.ts:9-10 | the pushed section's ordinal is one more than the earlier sections of its type |
| Generate.NamedByOrdinalAppend | src/pages/api/generate.ts:229-239 | appending under the next ordinal keeps every name tied to its ordinal |
| Generate.SkippedNeverEmitted | src/pages/api/generate.ts:221 | no section comes from a skipped frame |
| Generate.SectionsKeepFrameOrder | src/pages/api/generate.ts:217-240 | sections keep the relative order of their frames |
| Generate.AtMostOnePerDedupType | src/pages/api/generate.ts:223-226 | at most one Card, one Blog and one Testimonial section |
| Generate.FirstOfDedupTypeIsKept | src/pages/api/generate.ts:223-226 | a non-skipped deduplicated frame is kept iff no earlier non-skipped frame has its type |
| Generate.NamesUnique | src/pages/api/generate.ts:8-11 | for digit-free types, component names are pairwise distinct |
| Generate.OrdinalPositive | src/pages/api/generate.ts:9 | a section is at least the first of its type |
| Generate.OrdinalGrows | src/pages/api/generate.ts:9-10 | a later section of the same type has a larger count |
| Text.Join | src/pages/api/generate.ts:243-244 | `xs.join(sep)`: empty for no element, the element alone for one, else the elements with the separator between them; Text.SplitJoin inverts it |
| Text.SplitJoin | src/pages/api/generate.ts:243-244 | splitting the joined lines at the line break gives back the lines, each after the first carrying the separator's padding |
| Generate.ImportLine | src/pages/api/generate.ts:243 | the import of one component from `./components/NAME.astro`; Generate.ImportLineInjective and Generate.ImportLineOneLine state its properties |
| Generate.TagLine | src/pages/api/generate.ts:244 | the `<NAME />` tag of one component; Generate.TagLineOneLine states its property |
| Generate.Imports | src/pages/api/generate.ts:243 | the import lines joined by line breaks; Generate.ImportsInOrder reads them back |
| Generate.Components | src/pages/api/generate.ts:244 | the tags joined by a line break and two spaces; Generate.ComponentsInOrder reads them back |
| Generate.PageLines | src/pages/api/generate.ts:246-264 | the lines of `index.astro`: front matter holding the imports, then the fixed head and the body holding the tags |
| Generate.IndexPage | src/pages/api/generate.ts:246-264 | the `index.astro` template literal: its lines (Generate.PageLines) joined by line breaks around the given imports and tags; this is what Generate.Generator.Post renders |
| Generate.IndexFile | src/pages/api/generate.ts:243-264 | the page's lines joined by line breaks, for the imports and tags of the sections |
| Generate.ImportLineOneLine | src/pages/api/generate.ts:243 | an import line has no line break when the name has none |
| Generate.TagLineOneLine | src/pages/api/generate.ts:244 | a tag has no line break when the name has none |
| Generate.ImportsInOrder | src/pages/api/generate.ts:243 | split at line breaks, the imports are one import per section, in section order |
| Generate.ComponentsInOrder | src/pages/api/generate.ts:244 | split at line breaks, the body is one tag per section in order, each after the first indented by two spaces |
| Generate.ImportLineInjective | src/pages/api/generate.ts:243 | equal import lines mean equal component names |
| Generate.EmptyPage | src/pages/api/generate.ts:243-244 | with no section there are no imports and no tags |
| Generate.FramesAccountedFor | src/pages/api/generate.ts:217-226 | each frame is exactly one of generated, skipped, or dropped as a repeated Card, Blog or Testimonial |
| Generate.StatsAddUp | src/pages/api/generate.ts:266-281 | totalComponents equals generatedComponents equals the section count; generated + skipped + dropped = totalFrames |
| Generate.CountsTransfer | src/pages/api/generate.ts:6-11 | counters that agree key by key with the fold's counters count the same sections |
| Generate.SameCountsBump | src/pages/api/generate.ts:9 | bumping the same key of two agreeing counter maps keeps them agreeing |
| Pipeline.ConvertedTypesAreWords | src/pages/api/convert.ts:115-121 | every type the convert route emits is digit-free and one line |
| Pipeline.ConvertedTypesOffPrototype | src/pages/api/convert.ts:115-121 | no type the convert route emits names an inherited `Object.prototype` member, so for converted frames the code as written names as the model does |
| Pipeline.CategoryNameOffPrototype | src/pages/api/convert.ts:48-57 | no category name is an inherited object member |
| Pipeline.ConvertedNamesUnique | src/pages/api/generate.ts:229 | generated from converted frames, no two components share a name |
| Pipeline.ConvertedImportsReadBack | src/pages/api/generate.ts:243 | for converted frames the import block reads back line by line as the imports in order |
| Pipeline.ThreeGalleries | src/pages/api/generate.ts:8-11 | three galleries are named Gallery, Gallery2 and Gallery3 |
| Pipeline.SecondTestimonialDropped | src/pages/api/generate.ts:223-226 | of two testimonials only the first is rendered, with its own texts |
| Pipeline.SkippedContainerCounted | src/pages/api/generate.ts:221 | a skipped container adds to skippedFrames and nothing else |
| Pipeline.PrototypeTypesNamedApart | src/pages/api/generate.ts:8-11 | with counters of own keys only, two "toString" frames are named "toString" and "toString2" |
| Pipeline.DigitTypesCollide | src/pages/api/generate.ts:8-11 | the types "Hero2", "Hero", "Hero" name the first and third components both "Hero2" |

## Left out

- HTTP transport: request parsing, the OPTIONS preflight, CORS headers, JSON serialisation and the GET routes of both files. The routes are modelled as functions from the parsed inputs to a response datatype.
- The REST call to the design tool is the `fetch` parameter of `ConvertPost`. The access token, user agent and request URL are not modelled.
- Timestamps (`new Date().toISOString()`) and the echoed `figmaURL`/`fileKey` fields of the responses are not modelled.
- The convert route's `embedUrl`, built with `encodeURIComponent`, is not modelled.
- The `rawNode` field that convert attaches and the unused `node` parameter of `generateAstroCode` are not modelled.
- The 500 answer of each `catch` block is modelled only for the convert route's failed fetch. Exceptions from malformed JSON or missing fields are not modelled.
- Templates.GenerateAstroCode: each component is represented by the strings it binds: id, props, links, captions and paragraphs. The fixed HTML and Tailwind markup around them, the placeholder image URLs and the URI-encoded card title are not modelled.
- Text.ToLower: folds ASCII capitals only, where `toLowerCase` also folds non-ASCII letters. This matters in two places. The classifier differs only for names whose non-ASCII letters fold into a keyword. The default template's line (Templates.SectionDescription) differs for any client-posted type with a non-ASCII capital: for the type "Über" the code writes "This is a über section with some content." and the model "This is a Über section with some content.".
- Node: a node's missing `children` is taken as the empty list, and a missing `characters` as the empty string. For `characters` the route treats both alike. For `children` it does not quite: with `children` absent, `hasChildFrames` is `undefined`, and so is `shouldSkip` when the frame has no text, so `JSON.stringify` drops both fields, where the model emits `false`. The generate route reads a missing `shouldSkip` as false, so what it admits is the same.
- Templates.SectionDescription: lower-cases the type in ASCII only (see the Text.ToLower line). For a client-posted type with a non-ASCII capital, such as "Über", the line differs from the code's.
- Generate: frames reach the generate route as JSON the model does not type-check. A frame's `texts` is taken to be a list of strings, its `shouldSkip` a boolean and its `type` a string.
- Generate.NamesUnique: proved for digit-free types under counters that hold only their own keys (see Findings). In the code as written it also fails for a type that names an inherited `Object.prototype` member: two "toString" frames are both named "toString" (Naming.PrototypeNameRepeats). Types with digits such as "Hero2", "Hero", "Hero" clash in both (Pipeline.DigitTypesCollide). Every type the convert route emits is digit-free and no inherited member (Pipeline.ConvertedNamesUnique, Pipeline.ConvertedTypesOffPrototype), so converted frames are not affected.
- Generate.Generator.GetUniqueName: the counters hold only the keys the route sets, so a missing base reads 0. On the plain object of the code as written, a base that names an inherited `Object.prototype` member ("toString", "constructor", "valueOf", "hasOwnProperty", "__proto__" and the rest) reads that member, and the bare base comes back on every call. That behaviour is modelled by Naming.AsWrittenUniqueName, not by the class (see Findings).
- Generate.Generator.Post: the counters are a single object shared by all requests. Interleaving of concurrent requests is not modelled. Each call runs from reset to answer. With the model's counters the answer depends on the request alone. In the code as written the names of inherited-member types also depend on earlier requests (Naming.PrototypeNamesDependOnHistory).

The code does none of the following, and neither does the model:

- extract styles or carry geometry;
- reorder frames: they keep document order, with no navbar moved first or footer moved last;
- trim or split texts;
- deduplicate any type besides Card, Blog and Testimonial;
- take the Hero's call to action from its last text: it takes the third;
- show anything but the component name in the Footer's copyright line.

## Findings

| source | as written | input that shows it | evidently intended | confidence | as-written member | corrected member |
|---|---|---|---|---|---|---|
| src/pages/api/generate.ts:6-11 | `componentCounters` is a plain object literal. For a base naming an inherited `Object.prototype` member, `componentCounters[base]` reads that member. `(member \|\| 0) + 1` is then a string, which is never `> 1`, so the bare base is returned on every call. After a reset finds the key, it counts from 0 again. | two non-skipped frames of type "toString": both are named "toString" and import `./components/toString.astro` | every base counts from 0, as with an object without a prototype or a `Map`, so the second is "toString2" | high; not executed | Naming.AsWrittenUniqueName (exhibited by Naming.PrototypeNameRepeats and Naming.PrototypeNamesDependOnHistory) | Generate.Generator.GetUniqueName (names proved distinct by Generate.NamesUnique; Pipeline.PrototypeTypesNamedApart) |
