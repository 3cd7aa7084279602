# python-pptx: element-class registry and slide shape views, in Dafny

This project models two pieces of python-pptx.

- **The element-class registry** of `pptx/oxml/__init__.py`. One process-wide lookup (`element_class_lookup`) maps a namespace-qualified element name to the custom element class the XML parser builds for it. `register_element_cls` turns a `"prefix:local"` tag into a `(namespace URI, local part)` key and writes the class under that key. The module body is a fixed program of 98 such calls, run when the package is imported.
- **The shape tree and placeholder collection of a slide**, as the `then` steps of `features/steps/slide.py` use them. Both views share one sequence protocol: `len`, zero-based indexing and iteration. Each child is wrapped by the shape factory on access. The placeholder collection is the order-preserving sub-view of the `p:sp` children that carry a `p:ph` marker.

Files:

- `wrappers.dfy`: the `Option` and `Result` datatypes.
- `namespaces.dfy` (module `Namespaces`): tag parsing and prefix resolution.
- `registry.dfy` (module `Oxml`): the element class identifiers and the lookup class `ElementClassLookup`, with `Register` and `RegisterEach`. It also holds the fold `RegisterAll`, which specifies a straight-line program of registrations, and the lemmas about it.
- `startup.dfy` (module `OxmlStartup`): the 98 registrations of the module body. They are grouped as in the source by the module the classes come from. This file also holds import as a method (`ImportOxml`) and the facts about the table it builds.
- `startup_tags.dfy` (module `StartupTags`): the tag sets of the groups, used to prove that no tag is registered twice.
- `slide_shapes.dfy` (module `SlideShapes`): shape elements, the shape factory, the sequence protocol, the placeholder filter, and the test slide.
- `slide_steps.dfy` (module `SlideSteps`): each `then` step as a check that passes or fails, and what the steps together demand of a slide.

## Model

| member | source | states |
|---|---|---|
| Namespaces.FirstColon | pptx/oxml/__init__.py:36 | the position found holds a colon and no colon comes before it; with no position, the tag has no colon |
| Namespaces.ParseTag | pptx/oxml/__init__.py:36 | a tag parses exactly when it contains a colon, and the prefix parsed has no colon |
| Namespaces.Resolve | pptx/oxml/__init__.py:36-37 | a tag resolves exactly when it parses and its prefix is in the prefix table; the key is the prefix's namespace URI and the local part |
| Namespaces.NsUriInjective | pptx/oxml/__init__.py:37 | two different known prefixes name two different namespaces |
| Namespaces.ParseTagText | pptx/oxml/__init__.py:36 | the parsed prefix and local part spell the tag they came from |
| Namespaces.TextParseTag | pptx/oxml/__init__.py:36 | spelling a tag as "prefix:local" and parsing it gives the same tag back (round trip) |
| Namespaces.ResolveText | pptx/oxml/__init__.py:36-37 | "prefix:local" resolves to (namespace of prefix, local), or fails with the unknown-prefix error |
| Namespaces.SecondColonKept | pptx/oxml/__init__.py:33-37 | under the first-colon split, "a:b:c" resolves to the DrawingML namespace with local part "b:c" |
| Namespaces.UnknownPrefixRejected | pptx/oxml/__init__.py:36-37 | "zz:local" fails with an unknown-prefix error, and a tag without a colon fails too; neither yields a namespace |
| Oxml.Registered | pptx/oxml/__init__.py:30-38 | one call: an unresolvable tag is an error; otherwise the key maps to the class, the key set grows by exactly that key and every other entry is unchanged |
| Oxml.RegisterLastWriteWins | pptx/oxml/__init__.py:38 | registering the same tag twice leaves the table as registering only the second class |
| Oxml.RegisterCommutes | pptx/oxml/__init__.py:37-38 | registrations of tags with different keys can be swapped |
| Oxml.PrefixesIndependent | pptx/oxml/__init__.py:37-38 | the same local part under two different prefixes gives two keys; registering one leaves what the other finds unchanged |
| Oxml.Registration.Key | pptx/oxml/__init__.py:36-37 | a well-formed registration's tag resolves to its key, whose local part is the registration's |
| Oxml.Flatten | pptx/oxml/__init__.py:44-232 | every call of every group occurs in the flattened program, and nothing else does |
| Oxml.FlattenLength | pptx/oxml/__init__.py:44-232 | the flattened program is exactly as long as all the groups together |
| Oxml.FlattenOrder | pptx/oxml/__init__.py:44-232 | the groups are laid end to end in order: the i-th call of group k sits at the sum of the earlier groups' sizes plus i |
| Oxml.FlattenDistinct | pptx/oxml/__init__.py:44-232 | groups that each have no repeated tag and share no tag flatten to a program with no repeated tag |
| Oxml.FlattenWellFormed | pptx/oxml/__init__.py:44-232 | groups of well-formed calls flatten to well-formed calls |
| Oxml.DistinctTagsDistinctKeys | pptx/oxml/__init__.py:37-38 | well-formed calls with different tags write different keys |
| Oxml.RegisterAll | pptx/oxml/__init__.py:44-232 | a program of calls, run until the first one that raises, never removes a key |
| Oxml.FirstError | pptx/oxml/__init__.py:44-232 | a program of well-formed calls raises nowhere |
| Oxml.RegisterAllUntouched | pptx/oxml/__init__.py:38 | a key no call writes keeps its entry, or stays absent |
| Oxml.RegisterAllLastWins | pptx/oxml/__init__.py:38 | a key ends up with the class of the last call that writes it |
| Oxml.RegisterAllDistinct | pptx/oxml/__init__.py:44-232 | with no tag repeated, every call's tag ends up with that call's class |
| Oxml.RegisterAllOrderIrrelevant | pptx/oxml/__init__.py:44-232 | with no tag repeated, any reordering of the same calls builds the same table |
| Oxml.ElementClassLookup.constructor | pptx/oxml/__init__.py:16 | the lookup starts empty |
| Oxml.ElementClassLookup.Lookup | pptx/oxml/__init__.py:16-18 | the class lookup finds a class exactly for a registered (namespace, local part) key, and then the class registered under it |
| Oxml.ElementClassLookup.Register | pptx/oxml/__init__.py:30-38 | the outcome is the tag's resolution. On success the new entry finds the class and every other lookup is as before; on failure the table is unchanged |
| Oxml.ElementClassLookup.RegisterEach | pptx/oxml/__init__.py:44-232 | the loop leaves exactly the table of the fold `RegisterAll` and reports the fold's first error |
| OxmlStartup.ImportOxml | pptx/oxml/__init__.py:44-232 | importing the package builds, from an empty lookup, exactly the startup table; the error of the first call that raised is returned, and there is none |
| OxmlStartup.StartupWellFormed | pptx/oxml/__init__.py:44-232 | every call of the module body uses a known prefix, so import never raises |
| StartupTags.GroupTagsApart | pptx/oxml/__init__.py:44-232 | no tag appears in two groups of the module body |
| OxmlStartup.StartupGroupsApart | pptx/oxml/__init__.py:44-232 | no two groups of calls share a tag |
| OxmlStartup.StartupTagsDistinct | pptx/oxml/__init__.py:44-232 | no tag is registered twice by the module body |
| OxmlStartup.StartupRegistryComplete | pptx/oxml/__init__.py:44-232 | after import, every listed tag resolves to its key, which finds its listed class |
| OxmlStartup.StartupRegistryExact | pptx/oxml/__init__.py:44-232 | after import, a key is present exactly when some listed call writes it, and it holds that call's class |
| OxmlStartup.StartupOrderIrrelevant | pptx/oxml/__init__.py:44-232 | running the same calls in any order, each once, builds the same table as import |
| OxmlStartup.GroupInEffect | pptx/oxml/__init__.py:44-232 | after import, every call of any one group is in effect |
| OxmlStartup.ShapeGroupsInEffect | pptx/oxml/__init__.py:145-200 | after import, every call of the six shape groups is in effect |
| OxmlStartup.ChartAndTextGroupsInEffect | pptx/oxml/__init__.py:41-232 | after import, every call of the chart-axis and text groups is in effect |
| OxmlStartup.ShapeClassesIn | pptx/oxml/__init__.py:154-198 | in any table holding the shape groups, p:sp, p:cxnSp, p:graphicFrame, p:grpSp, p:pic and p:ph find their own classes |
| OxmlStartup.ShapeElementClasses | pptx/oxml/__init__.py:154-198 | after import, p:sp→CT_Shape, p:cxnSp→CT_Connector, p:graphicFrame→CT_GraphicalObjectFrame, p:grpSp→CT_GroupShape, p:pic→CT_Picture and p:ph→CT_Placeholder |
| OxmlStartup.SharedClassesIn | pptx/oxml/__init__.py:45-232 | in any table holding those groups, one class sits under several tags |
| OxmlStartup.SharedClasses | pptx/oxml/__init__.py:45-232 | after import, CT_TickMark sits under both tick-mark tags, CT_GroupShape under p:grpSp and p:spTree, and CT_TextBody under a:txBody, c:txPr and p:txBody |
| OxmlStartup.PrefixedTwinsIn | pptx/oxml/__init__.py:194-232 | in any table holding those groups, the same-local-part pairs each hold their class |
| OxmlStartup.PrefixedTwins | pptx/oxml/__init__.py:194-232 | after import, a:xfrm and p:xfrm, c:spPr and p:spPr, and a:txBody and p:txBody are separate keys (their namespaces differ), each holding its class |
| SlideShapes.ShapeTagClasses | pptx/oxml/__init__.py:154-198 | each kind of shape-tree child is registered under its own p: tag with its own class, and the p:ph marker is registered too; no two kinds share a tag or a class |
| SlideShapes.PlaceholderIsMarkedShape | pptx/oxml/__init__.py:154-198 | a child is a placeholder exactly when it is an element parsed as CT_Shape (a p:sp) that holds a p:ph marker |
| SlideShapes.Wrap | features/steps/slide.py:72-79 | the shape factory: picture exactly for p:pic, slide placeholder exactly for a marked p:sp, plain shape otherwise; every result is a base shape |
| SlideShapes.WrapAll | features/steps/slide.py:114-121 | iteration yields one wrapper per child, the i-th being the i-th child's wrapper |
| SlideShapes.ShapeView.Length | features/steps/slide.py:134-150 | len(view) is the number of items iteration yields |
| SlideShapes.ShapeView.At | features/steps/slide.py:82-87 | indexing succeeds exactly for 0 <= i < len, with the factory's wrapper of the i-th child (hence a base shape); any other index is an index error carrying the index and length |
| SlideShapes.ShapeView.Items | features/steps/slide.py:114-121 | iteration yields exactly len items, and the i-th is what indexing at i returns |
| SlideShapes.ShapeTree | features/steps/slide.py:42-45 | the shape tree has one item per given child, and indexing at i yields the factory's wrapper of the i-th child |
| SlideShapes.PlaceholderElements | features/steps/slide.py:124-131 | the placeholder collection is no longer than its tree, and every element in it is a placeholder |
| SlideShapes.PlaceholderPositions | features/steps/slide.py:143-150 | the placeholder positions are in range, strictly increasing and hold every placeholder position of the tree |
| SlideShapes.Placeholders | features/steps/slide.py:143-150 | slide.placeholders is no longer than the shape tree |
| SlideShapes.PlaceholdersAtPositions | features/steps/slide.py:143-150 | the j-th item of the collection is the child at the j-th placeholder position, so relative order is kept |
| SlideShapes.PlaceholderCount | features/steps/slide.py:143-150 | the collection's length is the number of placeholder children of the tree |
| SlideShapes.PlaceholderItems | features/steps/slide.py:90-95 | the collection's items are the tree's items at the placeholder positions, and each is a slide placeholder |
| SlideShapes.PlaceholderTyped | features/steps/slide.py:72-79 | an item of the tree is a slide placeholder exactly at a placeholder position |
| SlideShapes.FixtureShapeTree | features/steps/slide.py:134-140 | the test slide's tree has length 3 and yields placeholder, placeholder, picture |
| SlideShapes.FixturePlaceholderPositions | features/steps/slide.py:143-150 | the test slide's placeholders sit at positions 0 and 1 |
| SlideShapes.FixturePlaceholders | features/steps/slide.py:143-150 | the test slide's placeholder collection has length 2 and yields two slide placeholders |
| SlideSteps.EachShapeOfAppropriateType | features/steps/slide.py:72-79 | the step passes exactly when there are at most three shapes and each has exactly its expected class |
| SlideSteps.AccessShapeByIndex | features/steps/slide.py:82-87 | the step passes exactly when shapes[0] and shapes[1] exist and are base shapes, that is, when the tree has at least two children |
| SlideSteps.AccessPlaceholderByIndex | features/steps/slide.py:90-95 | the step passes exactly when the first two placeholders exist and are slide placeholders |
| SlideSteps.IterateShapes | features/steps/slide.py:114-121 | the counting loop passes exactly when the tree has three children |
| SlideSteps.IterateSlidePlaceholders | features/steps/slide.py:124-131 | the counting loop passes exactly when the placeholder collection has two items |
| SlideSteps.ShapeCountIsThree | features/steps/slide.py:134-140 | the length step passes exactly when iteration over the shape tree yields three items |
| SlideSteps.PlaceholderCountIsTwo | features/steps/slide.py:143-150 | the length step passes exactly when the tree has two placeholder children |
| SlideSteps.PlaceholderAccessNeedsTwo | features/steps/slide.py:90-95 | indexed access to two placeholders succeeds exactly when the collection has at least two items |
| SlideSteps.StepsPassExactly | features/steps/slide.py:72-150 | all the checked steps pass on a slide exactly when its tree yields placeholder, placeholder, picture |
| SlideSteps.FixturePassesSteps | features/steps/slide.py:72-150 | the test slide passes every checked step |

## Left out

- `parse_xml` and the lxml parser setup (pptx/oxml/__init__.py:17-27) are left out. They are a thin wrapper over lxml, which is not part of this model.
- lxml's own lookup is left out. It keeps one class dictionary per namespace (`get_namespace`, pptx/oxml/__init__.py:37). The model folds the two levels into one map keyed by `(namespace URI, local part)`, and an unregistered key finds `None`. What lxml builds for an unregistered element is not claimed.
- pptx/oxml/ns.py is not part of this model. It defines `NamespacePrefixedTag` and its prefix table.
  - The model's prefix table holds only the four prefixes the module body uses: `a`, `c`, `cp` and `p`, with their namespace names from ECMA-376.
  - The model splits a tag at its first colon; the split that ns.py really performs is not modelled. The only stated tag form is "nspfx:tagroot" (pptx/oxml/__init__.py:33-34).
  - Because of that split, a tag with two colons resolves: "a:b:c" gives the DrawingML namespace and local part "b:c" (`SecondColonKept`). Whether ns.py accepts such a tag is not claimed.
  - A tag without a colon, or with a prefix not in the table, fails registration with an error and leaves the table unchanged.
- The `CT_*` classes are opaque identifiers (`ClassId`); their behaviour is not modelled.
- pptx/parts/slide.py is not part of this model. It implements the shape tree, the placeholder collection and the shape factory.
  - The factory's dispatch order is this model's own choice, made to fit the feature: a picture tag first, then a `p:sp` carrying a placeholder marker, then a plain shape.
  - The placeholder test is that same marked-`p:sp` predicate. So in the model a picture carrying a marker is a picture, not a placeholder.
  - The shape tree is given directly as its shape-bearing children. The selection that skips the `p:nvGrpSpPr` and `p:grpSpPr` children of `p:spTree` is not modelled.
  - Marker attributes (placeholder index and type) are not modelled.
- Presentation loading, slide creation, saving and the fixture file are left out (features/steps/slide.py:24-67, :153-156). They are package and zip I/O. The test slide is written out as its three children.
- The two steps that only check the class of the collection objects (features/steps/slide.py:98-111) are left out. In the model those views have that type by construction.
- The behave and hamcrest harness and its `context` object are left out. Each step takes the slide's shape tree as a parameter instead.
- Negative indexing of a Python sequence is left out. `ShapeView.At` treats any index outside `[0, len)` as an index error; that is this model's choice.
- The base-shape checks of the access and iteration steps (features/steps/slide.py:82-87, :114-121) hold by construction in the model: every wrapper class is an instance of `BaseShape`. So only the exact-class and count checks can fail.
