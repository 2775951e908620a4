# Block consolidation of the PDF data extractor, in Dafny

This project models the engine of the PDF data extractor that turns the glyph
runs and images a PDF parser reports into merged data blocks, and proves
properties of it.

- **Blocks and geometry** (`geometry.dfy`, `text.dfy`, `tags.dfy`, `blocks.dfy`):
  the immutable block records and their null-to-empty normalisation, the
  quadrilateral `BlockArea` of both model generations, the coordinate helpers,
  and the case-insensitive, type-driven tag equality.
- **Scope tree** (`tree.dfy`, `builder.dfy`, `extract.dfy`): the per-page
  listener opens and closes `DataBlockBuilder` scopes on `BEGIN_TEXT` and
  `END_TEXT`, files every glyph run or image as a block of the innermost scope,
  and consolidates the scope forest bottom-up. `GetTreeElement` flattens
  block forests in pre-order.
- **Merge pipeline** (`pipeline.dfy`): `Apply` hands each strategy, in turn,
  the blocks it manages and appends what the strategy returns after the blocks
  it left alone.
- **Sibling strategies** (`order.dfy`, `seqs.dfy`, `sibling.dfy`): blocks
  sorted by position are scanned forward; each block merges with the first
  compatible later block, and passes repeat while the list shrinks, up to a
  budget.
- **Group strategies and the group pool** (`group.dfy`, `groupmerge.dfy`,
  `pool.dfy`, `comparer.dfy`): one group per block, pairwise absorption of
  groups, compilation, and a queue of reusable groups pulled and released.
- **Metadata caches** (`fonts.dfy`, `images.dfy`): the font measurements
  cached by name (ignoring case) and size and by Uid, and the images stored
  once per digest.
- **Entry point** (`extractor.dfy`): the default strategies, the page-range
  arithmetic, the page loop, the document block, and disposal.

State that the C# code updates in place is modelled by classes:
`TextBlockGroup`, `GroupPool`, `DataBlockBuilder`, `DataBlockExtractStrategy`,
`FontCache`, `ImageCache` and `PdfExtractor`. Their loops are `while` loops;
most are proved equal to a specification function, and those of the two
managers' `GetAll` are proved against their own postconditions. The pure parts are datatypes and
functions. Exceptions are the `Err` case of a `Result`. A `Guid` is a natural
number, and `Guid.NewGuid()` takes the next value of a counter that the model
threads through.

## Model

| member | source | states |
|---|---|---|
| Geometry.Diff | src/PDF.Data.Extractor.Abstractions/BlockCoordHelper.cs:31-34 | moving from `source` along the result reaches `target`, and the result is the zero vector exactly when the two points coincide |
| Geometry.DiffAntisymmetric | src/PDF.Data.Extractor.Abstractions/BlockCoordHelper.cs:31-34 | swapping the points negates the difference; the difference of a point with itself is zero |
| Geometry.DiffUnique | src/PDF.Data.Extractor.Abstractions/BlockCoordHelper.cs:31-34 | the difference is the only vector leading from `source` to `target` |
| Geometry.CoordEquality | src/PDF.Data.Extractor.Abstractions/BlockCoordHelper.cs:40-43 | false exactly when the coordinates are within the 0.001 tolerance of each other, so false for equal coordinates: the name is inverted |
| Geometry.CoordEqualitySymmetric | src/PDF.Data.Extractor.Abstractions/BlockCoordHelper.cs:40-43 | the comparison does not depend on the order of its arguments |
| Geometry.FromBox | src/PDF.Data.Extractor.Abstractions/BlockArea.cs:21-32 | X, Y, width and height stored as passed; the corners are (x, y), (x + width, y), (x + width, y + height), (x, y + height) |
| Geometry.FromBoxIsRectangle | src/PDF.Data.Extractor.Abstractions/BlockArea.cs:28-31 | with a non-negative width and height the top and bottom edges are the horizontal vector (width, 0), the left and right edges the vertical vector (0, height), and the top-left corner is left of the top-right one and above the bottom-left one |
| Geometry.FromCorners | src/Data.Block.Abstractions/BlockArea.cs:26-46 | the four corners stored in order, X and Y of the top-left corner, width and height the lengths of the top and left edges, never negative for a length function |
| Geometry.PointsRoundTrip | src/Data.Block.Abstractions/BlockArea.cs:145-148 | rebuilding an area from the points `GetPoints` returns gives back the same area |
| Geometry.GenerationsAgree | src/PDF.Data.Extractor.Abstractions/BlockArea.cs:21-32 | a first-generation box rebuilt from its corners by the second-generation constructor is the same area |
| Text.FoldAll | src/Data.Block.Abstractions/Tags/DataTag.cs:52 | the ordinal case-insensitive form of a string: same length, each character folded |
| Text.EqualsIgnoreCaseIsEquivalence | src/Data.Block.Abstractions/Tags/DataTag.cs:52 | comparison ignoring case is reflexive, symmetric and transitive |
| Text.CaseOnlyDifference | src/Data.Block.Abstractions/Tags/DataLangTag.cs:44-45 | two strings that differ only in letter case are equal ignoring case |
| Tags.NewLangTag | src/Data.Block.Abstractions/Tags/DataLangTag.cs:21-25 | a language tag has type Lang and stores the language and raw text as given |
| Tags.NewPropTag | src/PDF.Data.Extractor.Abstractions/Tags/DataPropTag.cs:21-26 | a property tag has type Prop and stores property, value and raw text as given |
| Tags.TagEqualsCases | src/Data.Block.Abstractions/Tags/DataTag.cs:47-65 | false for a non-tag and across tag types; otherwise equal exactly when the raw text and, for language and property tags, the language or the property and value are equal ignoring case |
| Tags.SameIsEquivalence | src/Data.Block.Abstractions/Tags/DataTag.cs:47-56 | tag equality is reflexive, symmetric and transitive |
| Tags.CaseInsensitiveTags | src/PDF.Data.Extractor.Abstractions/Tags/DataPropTag.cs:49-54 | two tags of one type whose strings differ only in letter case are equal |
| Tags.HashCode | src/Data.Block.Abstractions/Tags/DataTag.cs:68-77 | the hash depends on the tag type alone |
| Tags.EqualTagsEqualHashes | src/Data.Block.Abstractions/Tags/DataTag.cs:68-77 | equal tags have equal hash codes, whatever the hash combiner |
| Blocks.NewDataBlock | src/PDF.Data.Extractor.Abstractions/DataBlock.cs:31-42 | Uid, type and area stored unchanged; null tags and children stay null, present ones keep their elements in order; nothing else is set |
| Blocks.NewTextBlock | src/PDF.Data.Extractor.Abstractions/DataTextBlock.cs:25-49 | a text block has type Text; every text attribute and the text-box ids (null or an order-preserving copy) stored as given; tags and children forwarded unchanged |
| Blocks.NewImageBlock | src/Data.Block.Abstractions/DataImageBlock.cs:25-35 | an image block has type Image and stores its name, image resource Uid, area, tags and children as given |
| Blocks.NewRelationBlock | src/Data.Block.Abstractions/DataRelationBlock.cs:21-31 | a relation block has type Relation, null tags and null children; the contained Uids (null or an order-preserving copy), relation type and custom group type stored as given |
| Blocks.NewPageBlock | src/Data.Block.Abstractions/DataPageBlock.cs:24-35 | a page block has type Page and null tags; number and rotation stored; null relations become empty; children forwarded, so null stays null |
| Blocks.NewDocumentBlock | src/Data.Block.Abstractions/DataDocumentBlock.cs:26-49 | a document block has type Document and null tags; file name, version and the five metadata strings stored unchanged; null fonts or images become empty, present ones are copied in order |
| Blocks.NewRelationGroup | src/PDF.Data.Extractor/InternalModels/DataTextBlockRelationGroup.cs:25-47 | a relation group has type Relation and keeps its children in order; with no child the text is empty and the attributes are defaults, otherwise every text attribute is the first child's |
| Blocks.RelationGroupFirstChildOnly | src/PDF.Data.Extractor/InternalModels/DataTextBlockRelationGroup.cs:31-46 | the second and later children never affect the group's attributes |
| Tree.FlattenNode | src/PDF.Data.Extractor/Extensions/EnumerableExtensions.cs:37-49 | an element is yielded first, before anything of its subtree |
| Tree.GetTreeElement | src/PDF.Data.Extractor/Extensions/EnumerableExtensions.cs:33-52 | a null source yields nothing; without a child selector exactly the source elements come out; with one, one entry per block of the forest |
| Tree.GetTreeElementOfRoot | src/PDF.Data.Extractor/Extensions/EnumerableExtensions.cs:15-28 | a null root or null children yield nothing; the root itself is never yielded; otherwise one entry per block below the root |
| Tree.NoFollowIsIdentity | src/PDF.Data.Extractor/Extensions/EnumerableExtensions.cs:41 | with a null child selector the output is the source, in order |
| Tree.ForestCountMatches | src/PDF.Data.Extractor/Extensions/EnumerableExtensions.cs:37-50 | the output length of a finite forest equals its number of blocks |
| Tree.NodeCountMatches | src/PDF.Data.Extractor/Extensions/EnumerableExtensions.cs:39-48 | one block's part of the output has one entry per block of its subtree |
| Tree.BelowRoot | src/PDF.Data.Extractor/Extensions/EnumerableExtensions.cs:19-27 | the root-based overload never yields the root, and yields one entry per block below it |
| Tree.FlattenAppend | src/PDF.Data.Extractor/Extensions/EnumerableExtensions.cs:37 | top-level elements are processed in source order: the output of a concatenated source is the concatenation of the outputs |
| Tree.PreOrder | src/PDF.Data.Extractor/Extensions/EnumerableExtensions.cs:37-50 | each source element comes after everything yielded for the elements before it, immediately followed by its own flattened children, and before everything yielded for the elements after it |
| Tree.ChildrenAreYielded | src/PDF.Data.Extractor/Extensions/EnumerableExtensions.cs:43-48 | every child of a yielded block is yielded too |
| Pipeline.TextualTypes | src/PDF.Data.Extractor/Strategies/DataBlockMergeBaseStrategy.cs:22-25 | the type test of a text strategy accepts exactly text blocks and relation groups, and every text block passes the interface test |
| Pipeline.PublicMerge | src/PDF.Data.Extractor/Strategies/DataBlockMergeBaseStrategy.cs:28-31 | a block the strategy's type does not accept fails the cast; otherwise every block is forwarded to the typed merge and its result returned unchanged |
| Pipeline.Where | src/PDF.Data.Extractor/MergeStrategyExtension.cs:31-42 | the selection is no longer than the list and every selected block has the wanted ownership; `WhereIsFilter` gives its order and repeats |
| Pipeline.WhereIsFilter | src/PDF.Data.Extractor/MergeStrategyExtension.cs:31-42 | the selection equals `Where` with the ownership test: the wanted blocks, with their repeats, in their order in the list |
| Pipeline.PartitionConserves | src/PDF.Data.Extractor/MergeStrategyExtension.cs:31-42 | the managed and unmanaged parts together are a permutation of the list |
| Pipeline.WhereAll | src/PDF.Data.Extractor/MergeStrategyExtension.cs:31-42 | a list whose every block has the wanted ownership is selected whole, and its complement is empty |
| Pipeline.ApplyOne | src/PDF.Data.Extractor/MergeStrategyExtension.cs:28-46 | one strategy's round: the unmanaged blocks in their order followed by the strategy's output, or the strategy's exception |
| Pipeline.ApplySpec | src/PDF.Data.Extractor/MergeStrategyExtension.cs:24-25 | a null or empty input gives an empty result; with no strategy the input comes back unchanged |
| Pipeline.ApplyCompose | src/PDF.Data.Extractor/MergeStrategyExtension.cs:28-46 | running two lists of strategies is running the first, then the second on its output |
| Pipeline.NoCastFailure | src/PDF.Data.Extractor/Strategies/DataBlockMergeBaseStrategy.cs:22-31 | a strategy whose ownership predicate only claims blocks of its type never fails the cast |
| Pipeline.IdentityPermutes | src/PDF.Data.Extractor/MergeStrategyExtension.cs:20-49 | when each strategy returns its input, the pipeline's output is a permutation of its input and no Uid is used |
| Pipeline.SplitManaged | src/PDF.Data.Extractor/MergeStrategyExtension.cs:30-42 | the in-place scan with `RemoveAt(i)` and `i--` leaves exactly the unmanaged blocks, in order, and collects exactly the managed ones, in order |
| Pipeline.Apply | src/PDF.Data.Extractor/MergeStrategyExtension.cs:20-49 | the result is the strategies applied in turn as `ApplySpec` states |
| Pipeline.SiblingStrategy | src/PDF.Data.Extractor/Strategies/DataTextBlockSiblingMergeBaseStrategy.cs:21 | a sibling strategy owns exactly the text blocks, all of which its typed merge accepts |
| Pipeline.SiblingNeverGrows | src/PDF.Data.Extractor/Strategies/DataTextBlockSiblingMergeBaseStrategy.cs:56-104 | a sibling strategy's round never lengthens the list the pipeline carries |
| Pipeline.SiblingIsNeverGrowing | src/PDF.Data.Extractor/Strategies/DataTextBlockSiblingMergeBaseStrategy.cs:56-104 | the same, for every list and Uid |
| Pipeline.ApplyFromNeverGrows | src/PDF.Data.Extractor/MergeStrategyExtension.cs:28-46 | a list of strategies none of which lengthens the list never lengthens it |
| Seqs.RemoveAt | src/PDF.Data.Extractor/Strategies/DataTextBlockSiblingMergeBaseStrategy.cs:240 | `List.RemoveAt`: one element shorter, the prefix kept, the suffix shifted down, and the removed element is the only one lost |
| Seqs.DistinctWith | src/PDF.Data.Extractor/Strategies/DataTextBlockSiblingMergeBaseStrategy.cs:157-164 | `Distinct` under a given equality: no two kept elements are equal, nothing is invented, and every input element is kept or equal to a kept one; `DistinctWithIsFirsts` gives which elements and their order |
| Seqs.FirstsKeepsFirsts | src/PDF.Data.Extractor/Strategies/DataTextBlockSiblingMergeBaseStrategy.cs:146-164 | the reference `Firsts` reads the input at strictly increasing positions, each holding an element no earlier element equals, and misses no such position |
| Seqs.FirstsPositions | src/PDF.Data.Extractor/Strategies/DataTextBlockSiblingMergeBaseStrategy.cs:146-164 | the positions `Firsts` reads are strictly increasing and each holds an element no earlier element equals |
| Seqs.FirstsComplete | src/PDF.Data.Extractor/Strategies/DataTextBlockSiblingMergeBaseStrategy.cs:146-164 | every element no earlier element equals is kept by `Firsts` |
| Seqs.DistinctWithIsFirsts | src/PDF.Data.Extractor/Strategies/DataTextBlockSiblingMergeBaseStrategy.cs:146-164 | for a transitive equality, `Distinct` equals `Firsts`: the first element of each class of equal elements, in input order |
| Seqs.CoveredIffEarlier | src/PDF.Data.Extractor/Strategies/DataTextBlockSiblingMergeBaseStrategy.cs:157-164 | when every earlier element is kept or equal to a kept one, a new element equals a kept one exactly when it equals an earlier one |
| Seqs.FirstAtPrefix | src/PDF.Data.Extractor/Strategies/DataTextBlockSiblingMergeBaseStrategy.cs:157-164 | whether an element is the first of its class depends only on the elements up to it |
| Seqs.Distinct | src/PDF.Data.Extractor/Strategies/DataTextBlockSiblingMergeBaseStrategy.cs:146-152 | `Distinct` with default equality: the same elements without repeats, each kept at its first occurrence and in input order (`Firsts` under `==`) |
| Seqs.DistinctOfDistinct | src/PDF.Data.Extractor/Strategies/DataTextBlockSiblingMergeBaseStrategy.cs:146-152 | a list without repeats is left unchanged |
| Seqs.Filter | src/PDF.Data.Extractor/Strategies/DataTextBlockSiblingMergeBaseStrategy.cs:161 | `Where`: exactly the elements that satisfy the predicate; `FilterAppend` and `FilterOne` give its order and repeats |
| Seqs.FilterAppend | src/PDF.Data.Extractor/Strategies/DataTextBlockSiblingMergeBaseStrategy.cs:161 | `Where` over a concatenation is the concatenation of the selections |
| Seqs.FilterOne | src/PDF.Data.Extractor/Strategies/DataTextBlockSiblingMergeBaseStrategy.cs:161 | `Where` on one element keeps it exactly when it satisfies the predicate |
| Order.Insert | src/PDF.Data.Extractor/Strategies/DataTextBlockHorizontalSiblingMergeStrategy.cs:37-40 | inserting into a list sorted by Y then X keeps it sorted and adds exactly the new block |
| Order.SortByPosition | src/PDF.Data.Extractor/Strategies/DataTextBlockHorizontalSiblingMergeStrategy.cs:37-40 | `OrderBy(Y).ThenBy(X)`: the result is sorted by Y then X and is a permutation of the input |
| Order.SortSorted | src/PDF.Data.Extractor/Strategies/DataTextBlockVerticalSiblingMergeStrategy.cs:43-46 | a list already in position order is left unchanged |
| Sibling.AllowedSpace | src/PDF.Data.Extractor/Strategies/DataTextBlockHorizontalSiblingMergeStrategy.cs:43-48 | horizontal: 1.1 times the larger of the two blocks' glyph-plus-space extents, so at least 1.1 times each; vertical: the source's line size |
| Sibling.TextExtent | src/PDF.Data.Extractor/Strategies/DataTextBlockHorizontalSiblingMergeStrategy.cs:46-47 | the widest glyph times the point value, plus the spaces' width: no less than the glyph part when space widths are not negative, and exactly it when the space width is zero |
| Sibling.CompareLine | src/PDF.Data.Extractor/Strategies/DataTextBlockVerticalSiblingMergeStrategy.cs:56-59 | horizontal: the top edge; vertical: the left edge, or the right edge when aligned right, each as a corner difference |
| Sibling.SourcePoint | src/PDF.Data.Extractor/Strategies/DataTextBlockVerticalSiblingMergeStrategy.cs:62-66 | a corner of the source area: top-right horizontally; bottom-left, or bottom-right when aligned right, vertically |
| Sibling.TargetPoint | src/PDF.Data.Extractor/Strategies/DataTextBlockVerticalSiblingMergeStrategy.cs:68-71 | a top corner of the target area: top-left horizontally and when aligned left, top-right when aligned right |
| Sibling.CanMergePair | src/PDF.Data.Extractor/Strategies/DataTextBlockSiblingMergeBaseStrategy.cs:218-234 | a pair merges only with equal font size, font name ignoring case, scale, magnitude, line size and font line size |
| Sibling.MergeText | src/PDF.Data.Extractor/Strategies/DataTextBlockVerticalSiblingMergeStrategy.cs:74-80 | the merged text starts with the source text and ends with the target text; plain concatenation horizontally or when either is empty, a line break between them otherwise |
| Sibling.HorizontalArea | src/PDF.Data.Extractor/Strategies/DataTextBlockHorizontalSiblingMergeStrategy.cs:69-77 | the merged box sits at the source's top-left corner and has a non-negative width and height |
| Sibling.HorizontalAreaBounds | src/PDF.Data.Extractor/Strategies/DataTextBlockHorizontalSiblingMergeStrategy.cs:71-74 | when the source is left of and above the target, the merged box reaches the rightmost right edge and the lowest bottom edge |
| Sibling.VerticalInitialArea | src/PDF.Data.Extractor/Strategies/DataTextBlockVerticalSiblingMergeStrategy.cs:85-86 | the vertical merge starts from the source's top corners and the target's bottom corners, so its top edge is the source's and its bottom edge the target's |
| Sibling.MergeArea | src/PDF.Data.Extractor/Strategies/DataTextBlockVerticalSiblingMergeStrategy.cs:83-88 | each subclass's area merge: the horizontal box, or the adjusted vertical quadrilateral |
| Sibling.MergeTags | src/PDF.Data.Extractor/Strategies/DataTextBlockSiblingMergeBaseStrategy.cs:157-164 | every kept tag has a raw value and comes from one of the two lists; no two kept tags are equal; every tag with a raw value has an equal kept tag; and the kept tags are the first of each class, source tags before target tags, in order |
| Sibling.MergeChildren | src/PDF.Data.Extractor/Strategies/DataTextBlockSiblingMergeBaseStrategy.cs:146-152 | exactly the children of both blocks, without repeats, each at its first occurrence, the source's before the target's |
| Sibling.MergeTextBoxIds | src/PDF.Data.Extractor/Strategies/DataTextBlockSiblingMergeBaseStrategy.cs:82-84 | exactly the text-box ids of both blocks, without repeats, each at its first occurrence, the source's before the target's |
| Sibling.MergeBlocks | src/PDF.Data.Extractor/Strategies/DataTextBlockSiblingMergeBaseStrategy.cs:71-87 | a new text block with a fresh Uid, the source's font attributes, and the merged text, area, text boxes, tags and children |
| Sibling.FindPartner | src/PDF.Data.Extractor/Strategies/DataTextBlockSiblingMergeBaseStrategy.cs:202-244 | the partner found is a later, different block that passes every font, scale and geometry check; every block skipped before it fails a check; a missing font throws `KeyNotFound` |
| Sibling.Scan | src/PDF.Data.Extractor/Strategies/DataTextBlockSiblingMergeBaseStrategy.cs:191-245 | the scan leaves only text blocks, and its only exception is a missing font |
| Sibling.ScanStep | src/PDF.Data.Extractor/Strategies/DataTextBlockSiblingMergeBaseStrategy.cs:191-245 | one step of the outer scan: a missing font throws; no partner moves to the next block; a partner is merged in, removed, and the merged block is examined again |
| Sibling.ScanShape | src/PDF.Data.Extractor/Strategies/DataTextBlockSiblingMergeBaseStrategy.cs:237-242 | each merge removes one block and uses one Uid, the blocks before the scan position are untouched, and a non-empty list never becomes empty |
| Sibling.MergeAt | src/PDF.Data.Extractor/Strategies/DataTextBlockSiblingMergeBaseStrategy.cs:237-240 | the current block at `i` is replaced by the merged one and exactly the partner at `j` is removed: the blocks before `i`, between `i` and `j` and after `j` stay in place and in order |
| Sibling.TryMergeSpec | src/PDF.Data.Extractor/Strategies/DataTextBlockSiblingMergeBaseStrategy.cs:181-249 | fewer than two blocks come back unchanged; a pass never lengthens the list, uses one Uid per block removed, and leaves a non-empty list non-empty |
| Sibling.Passes | src/PDF.Data.Extractor/Strategies/DataTextBlockSiblingMergeBaseStrategy.cs:62-100 | repeated passes keep the same bounds: never longer, one Uid per block removed, never empty from non-empty |
| Sibling.SiblingMerge | src/PDF.Data.Extractor/Strategies/DataTextBlockSiblingMergeBaseStrategy.cs:56-105 | the typed `Merge` never lengthens its input, uses one Uid per block removed and never empties a non-empty input |
| Sibling.SeekPartner | src/PDF.Data.Extractor/Strategies/DataTextBlockSiblingMergeBaseStrategy.cs:202-244 | the inner loop returns the partner `FindPartner` specifies |
| Sibling.TryMerge | src/PDF.Data.Extractor/Strategies/DataTextBlockSiblingMergeBaseStrategy.cs:181-249 | the in-place scan with `localCollection[i] = newBlock`, `RemoveAt` and `i--` returns what `TryMergeSpec` specifies |
| Sibling.PassCount | src/PDF.Data.Extractor/Strategies/DataTextBlockSiblingMergeBaseStrategy.cs:62-100 | the do-while loop makes at least one pass, and at most the budget (one when the budget is not positive) and at most the number of blocks |
| Sibling.Merge | src/PDF.Data.Extractor/Strategies/DataTextBlockSiblingMergeBaseStrategy.cs:56-105 | the pass loop returns what `SiblingMerge` specifies |
| Group.CenterAsWritten | src/PDF.Data.Extractor/DataTextBlockGroup.cs:232-233 | the centre as written: half of each extent subtracted from the top-left corner |
| Group.Center | src/PDF.Data.Extractor/DataTextBlockGroup.cs:232-233 | the centre of the box: equally far from the left and right edges and from the top and bottom edges |
| Group.CenterInside | src/PDF.Data.Extractor/DataTextBlockGroup.cs:232-233 | for a well-formed box, the centre lies inside it |
| Group.CenterAsWrittenOutside | src/PDF.Data.Extractor/DataTextBlockGroup.cs:232-233 | for the box from (0, 0) to (2, 2) the written formula gives (-1, -1), outside the box, where the centre is (1, 1) |
| Group.UpdatedShape | src/PDF.Data.Extractor/DataTextBlockGroup.cs:203-234 | an empty group keeps its shape; one block gives its corners and edges; several blocks leave the corners unchanged; the centre is recomputed for any non-empty group |
| Group.SingleBlockCentered | src/PDF.Data.Extractor/DataTextBlockGroup.cs:208-219 | a group of one well-formed block is centred inside that block's area |
| Group.TextBlockGroup.constructor | src/PDF.Data.Extractor/DataTextBlockGroup.cs:36-39 | a new group holds no block and is not in use |
| Group.TextBlockGroup.IsUsed | src/PDF.Data.Extractor/DataTextBlockGroup.cs:129-132 | a zero counter is not in use; any other counter, including the -1 a `Clear` without `Initialize` leaves, is in use |
| Group.TextBlockGroup.Initialize | src/PDF.Data.Extractor/DataTextBlockGroup.cs:141-144 | the use counter goes up by one and nothing else changes |
| Group.TextBlockGroup.Clear | src/PDF.Data.Extractor/DataTextBlockGroup.cs:149-154 | the use counter goes down by one and the blocks are emptied; referential and corners are kept |
| Group.TextBlockGroup.PushData | src/PDF.Data.Extractor/DataTextBlockGroup.cs:189-198 | the block is appended; the first block into an empty group becomes the referential and its top-left the origin, so its relative position is (0, 0); later pushes keep both |
| Group.TextBlockGroup.UpdateGroupInfo | src/PDF.Data.Extractor/DataTextBlockGroup.cs:203-234 | the new shape is `UpdatedShape` of the blocks and the old shape; nothing else changes |
| Group.TextBlockGroup.Push | src/PDF.Data.Extractor/DataTextBlockGroup.cs:159-163 | the block is appended, the referential set when the group was empty, and the shape refreshed |
| Group.TextBlockGroup.Consume | src/PDF.Data.Extractor/DataTextBlockGroup.cs:168-174 | all of the other group's blocks are appended in order and the shape refreshed; a group consuming itself appends its first block and then throws `InvalidOperation` |
| Group.TextBlockGroup.Compile | src/PDF.Data.Extractor/DataTextBlockGroup.cs:179-182 | always throws `NotImplemented` |
| Group.TextBlockGroup.RelativePosition | src/PDF.Data.Extractor/DataTextBlockGroup.cs:239-242 | throws exactly when the group has no origin; otherwise the offset that takes the block's position to the origin |
| GroupMerge.OverlapCases | src/PDF.Data.Extractor/Strategies/DataTextBlockOverlapStrategy.cs:41-60 | different line sizes (when fonts are compared) or magnitudes never merge; otherwise two groups merge exactly when their world areas overlap, or overlap within the tolerance 4 |
| GroupMerge.OverlapCanMerge | src/PDF.Data.Extractor/Strategies/DataTextBlockOverlapStrategy.cs:41-60 | a merge needs equal line sizes when fonts are compared, equal magnitudes, and world areas that overlap exactly or within tolerance 4 |
| GroupMerge.TextBoxSymmetric | src/PDF.Data.Extractor/Strategies/DataBlockMergePDFTextBoxStrategy.cs:16-24 | the text-box predicate is symmetric and is false when either side has no text-box ids |
| GroupMerge.TextBoxCanMerge | src/PDF.Data.Extractor/Strategies/DataBlockMergePDFTextBoxStrategy.cs:16-24 | true exactly when both groups have text-box ids and the two id sequences are equal |
| GroupMerge.TextBoxesOrderSensitive | src/PDF.Data.Extractor/Strategies/DataBlockMergePDFTextBoxStrategy.cs:18-19 | for all id lists, `SequenceEqual` holds exactly when the lengths agree and the ids agree position by position; lists differing at some position do not match, whatever their contents as bags |
| GroupMerge.Consumed | src/PDF.Data.Extractor/Strategies/DataTextBlockGroupBaseStrategy.cs:86-88 | after the current group consumed another and the latter was removed: one group fewer, every block kept, the current group extended by the other's blocks and every other group unchanged in order |
| GroupMerge.ConsumedBag | src/PDF.Data.Extractor/Strategies/DataTextBlockGroupBaseStrategy.cs:86-88 | moving one group's blocks into another and dropping it keeps every block |
| GroupMerge.Absorb | src/PDF.Data.Extractor/Strategies/DataTextBlockGroupBaseStrategy.cs:70-93 | the nested loops never lose a block, never add one, and leave between one group and as many as they started with |
| GroupMerge.AbsorbStep | src/PDF.Data.Extractor/Strategies/DataTextBlockGroupBaseStrategy.cs:74-91 | one step of the inner loop: the current index and, with Uid skipping, an equal Uid are skipped; a throwing predicate throws; a rejection moves on; an accepted group is consumed and removed and the inner index stays |
| GroupMerge.AbsorbEnd | src/PDF.Data.Extractor/Strategies/DataTextBlockGroupBaseStrategy.cs:70-74 | the inner loop ends by moving to the next outer index, or the merge is finished |
| GroupMerge.Seeds | src/PDF.Data.Extractor/Strategies/DataTextBlockGroupBaseStrategy.cs:62-68 | block `i` goes alone into the `i`-th group, and the groups hold exactly the input blocks |
| GroupMerge.CompileOne | src/PDF.Data.Extractor/Strategies/DataTextBlockGroupBaseStrategy.cs:95 | the custom compiler's block when it gives one; otherwise the group's `Compile`, which throws `NotImplemented` |
| GroupMerge.CompileAll | src/PDF.Data.Extractor/Strategies/DataTextBlockGroupBaseStrategy.cs:95-96 | succeeds exactly when every group compiles, and then yields one block per group, in order |
| GroupMerge.GroupMergeSpec | src/PDF.Data.Extractor/Strategies/DataTextBlockGroupBaseStrategy.cs:53-103 | fewer than two blocks come back as they are; a successful merge never yields more blocks than it got; without a custom compiler two or more blocks always throw |
| GroupMerge.GroupMergeConserves | src/PDF.Data.Extractor/Strategies/DataTextBlockGroupBaseStrategy.cs:62-93 | when the nested loops succeed, every input block lies in exactly one surviving group and at least one group survives |
| GroupMerge.SeedGroups | src/PDF.Data.Extractor/Strategies/DataTextBlockGroupBaseStrategy.cs:62-68 | the seeding loop leaves group `i` holding block `i` alone, use counters unchanged |
| GroupMerge.ConsumeAt | src/PDF.Data.Extractor/Strategies/DataTextBlockGroupBaseStrategy.cs:86-87 | `Consume` then `RemoveAt`: the list loses the consumed group and its slots are `Consumed`; a group asked to consume itself throws |
| GroupMerge.TestPair | src/PDF.Data.Extractor/Strategies/DataTextBlockGroupBaseStrategy.cs:76-91 | one test of the inner loop does what `AbsorbStep` specifies on the groups' contents |
| GroupMerge.AbsorbTurn | src/PDF.Data.Extractor/Strategies/DataTextBlockGroupBaseStrategy.cs:74-92 | one turn of the inner loop keeps the loop's state and progresses: a group removed or the index advanced |
| GroupMerge.AbsorbInto | src/PDF.Data.Extractor/Strategies/DataTextBlockGroupBaseStrategy.cs:72-92 | the inner loop for one current group ends where `Absorb` says the next outer step starts; every removed group is handed back |
| GroupMerge.AbsorbGroups | src/PDF.Data.Extractor/Strategies/DataTextBlockGroupBaseStrategy.cs:70-93 | the nested loops on the groups yield exactly the groups `Absorb` specifies, or its exception; no group is lost between the survivors and the removed ones |
| GroupMerge.SeedAndAbsorb | src/PDF.Data.Extractor/Strategies/DataTextBlockGroupBaseStrategy.cs:62-93 | the seeding loop then the nested loops: `Absorb` on the seeds |
| GroupMerge.CompileGroups | src/PDF.Data.Extractor/Strategies/DataTextBlockGroupBaseStrategy.cs:95-96 | the `Select(...).ToArray()` yields `CompileAll` of the surviving groups |
| GroupMerge.Merge | src/PDF.Data.Extractor/Strategies/DataTextBlockGroupBaseStrategy.cs:53-103 | the strategy's `Merge` returns `GroupMergeSpec` and hands every pulled group back exactly once, whether it returns or throws, with use counters unchanged |
| Pool.Taken | src/PDF.Data.Extractor/Strategies/DataTextBlockProximityStrategy.cs:114-124 | a pull of `quantity` dequeues as many groups as the queue holds, up to `quantity` |
| Pool.GroupPool.constructor | src/PDF.Data.Extractor/Strategies/DataTextBlockProximityStrategy.cs:33-37 | the static constructor queues 200 new idle groups |
| Pool.GroupPool.PullGroupItems | src/PDF.Data.Extractor/Strategies/DataTextBlockProximityStrategy.cs:107-138 | `quantity` groups, distinct, in use once and empty: the queue's first ones in order, then new ones; the queue keeps the rest and stays idle |
| Pool.GroupPool.ReleaseItems | src/PDF.Data.Extractor/Strategies/DataTextBlockProximityStrategy.cs:143-159 | each group is cleared, its counter decreased once per occurrence, and appended to the queue in order; releasing distinct groups in use once, not already queued, keeps the queue idle |
| Pool.IdleQueue | src/PDF.Data.Extractor/Strategies/DataTextBlockProximityStrategy.cs:148-153 | appending idle groups to a disjoint idle queue keeps it idle and distinct |
| Pool.ThrowingCanMerge | src/PDF.Data.Extractor/Strategies/DataTextBlockProximityStrategy.cs:99-102 | the proximity `CanMerge` always throws `NotImplemented` |
| Pool.ProximityAlwaysThrows | src/PDF.Data.Extractor/Strategies/DataTextBlockProximityStrategy.cs:61-81 | with two or more blocks the proximity merge throws on its first `CanMerge` |
| Pool.SeededNext | src/PDF.Data.Extractor/Strategies/DataTextBlockProximityStrategy.cs:54-59 | one pass of the seeding loop as written fills group `2k` and no other |
| Pool.SeedAsWritten | src/PDF.Data.Extractor/Strategies/DataTextBlockProximityStrategy.cs:53-59 | the seeding loop as written puts block `j` into group `2j` and throws `IndexOutOfRange` exactly when `2(n-1)` passes the last group |
| Pool.ProximityMergeAsWritten | src/PDF.Data.Extractor/Strategies/DataTextBlockProximityStrategy.cs:44-92 | the proximity `Merge` as written returns fewer than two blocks as they are, and otherwise throws `IndexOutOfRange`; the pool stays valid |
| Pool.ProximityMerge | src/PDF.Data.Extractor/Strategies/DataTextBlockProximityStrategy.cs:44-92 | with the seeding index advanced once per block, fewer than two blocks come back as they are and otherwise the merge throws `NotImplemented`; the pool gets its groups back idle |
| Pool.MergePulled | src/PDF.Data.Extractor/Strategies/DataTextBlockProximityStrategy.cs:61-85 | the group merge on the pulled groups throws `NotImplemented` and hands back the same groups, still in use |
| Comparer.ChildUids | src/PDF.Data.Extractor/DataTextBlockGroupComparer.cs:47-48 | null children give no Uid; otherwise one Uid per child, in order |
| Comparer.GroupsEqual | src/PDF.Data.Extractor/DataTextBlockGroupComparer.cs:40-52 | two nulls are equal, one null is unequal to any group, and equal groups have as many child Uids |
| Comparer.GroupsEqualIsEquivalence | src/PDF.Data.Extractor/DataTextBlockGroupComparer.cs:40-52 | `Equals` is reflexive, symmetric and transitive, with two nulls equal and a null unequal to any group |
| Comparer.EqualIffSameUids | src/PDF.Data.Extractor/DataTextBlockGroupComparer.cs:45-49 | two groups are equal exactly when their ordered children have the same Uids at the same positions |
| Comparer.GroupHash | src/PDF.Data.Extractor/DataTextBlockGroupComparer.cs:54-58 | null children hash to 0 |
| Comparer.XorFold | src/PDF.Data.Extractor/DataTextBlockGroupComparer.cs:56-57 | no Uid folds to 0 and one Uid to its own hash |
| Comparer.EqualGroupsEqualHashes | src/PDF.Data.Extractor/DataTextBlockGroupComparer.cs:40-58 | equal groups have equal hashes, whatever the Uid hash |
| Comparer.XorFoldRemove | src/PDF.Data.Extractor/DataTextBlockGroupComparer.cs:56-57 | taking one Uid out of the XOR fold removes exactly its hash |
| Comparer.XorFoldPermutation | src/PDF.Data.Extractor/DataTextBlockGroupComparer.cs:56-57 | the XOR fold does not depend on the order of the Uids |
| Comparer.HashIgnoresOrder | src/PDF.Data.Extractor/DataTextBlockGroupComparer.cs:54-58 | groups whose children differ only in order hash alike |
| Builder.AnalyzeTags | src/PDF.Data.Extractor/Strategies/DataBlockBuilder.cs:194 | the final `Distinct()`: no two kept tags are equal, every kept tag was found, every found tag has an equal kept one, and the kept tags are the first of each class, in the order found |
| Builder.DataBlockBuilder.constructor | src/PDF.Data.Extractor/Strategies/DataBlockBuilder.cs:39-47 | a new empty scope, appended to its parent's children; the parent's blocks are unchanged |
| Builder.DataBlockBuilder.AddTextData | src/PDF.Data.Extractor/Strategies/DataBlockBuilder.cs:81-106 | one text block appended with a new Uid, scale `xScale / 100`, the font's Uid, the one text-box id and no children; earlier blocks and the children unchanged |
| Builder.DataBlockBuilder.AddImageData | src/PDF.Data.Extractor/Strategies/DataBlockBuilder.cs:111-122 | one image block appended, named `""` when the PDF gives no name and with no resource Uid when there is no image |
| Builder.DataBlockBuilder.Consolidate | src/PDF.Data.Extractor/Strategies/DataBlockBuilder.cs:127-142 | returns `ConsolidateSpec`: this scope's blocks, then each child's consolidated blocks in child order, through the pipeline once |
| Builder.DataBlockBuilder.GatherChildren | src/PDF.Data.Extractor/Strategies/DataBlockBuilder.cs:130-139 | the child loop returns `Gathered` of all the children: the first child exception, or their blocks concatenated |
| Builder.GatheredStep | src/PDF.Data.Extractor/Strategies/DataBlockBuilder.cs:131-139 | one more child: its exception, or its blocks appended and its Uid counter carried on |
| Builder.ChildRanked | src/PDF.Data.Extractor/Strategies/DataBlockBuilder.cs:39-47 | a child scope was created after its parent, so the recursion goes down |
| Builder.GatherChild | src/PDF.Data.Extractor/Strategies/DataBlockBuilder.cs:133-138 | consolidating child `k` either throws, which the gathering throws, or extends the gathered blocks |
| Builder.GatheredErr | src/PDF.Data.Extractor/Strategies/DataBlockBuilder.cs:131-135 | a child's exception ends the gathering: every later prefix fails the same way |
| Builder.NoStrategyCollects | src/PDF.Data.Extractor/Strategies/DataBlockBuilder.cs:127-142 | with no strategy, consolidation is the pre-order collection of the scope tree's blocks and uses no Uid |
| Builder.NoStrategyCollectsKids | src/PDF.Data.Extractor/Strategies/DataBlockBuilder.cs:130-139 | the children part of `NoStrategyCollects` |
| Builder.IdentityConsolidates | src/PDF.Data.Extractor/Strategies/DataBlockBuilder.cs:127-142 | when every strategy merges to its own input, consolidation succeeds with a permutation of all the scope tree's blocks and uses no Uid |
| Builder.IdentityConsolidatesKids | src/PDF.Data.Extractor/Strategies/DataBlockBuilder.cs:130-139 | the children part of `IdentityConsolidates` |
| Extract.SupportedEvents | src/PDF.Data.Extractor/Strategies/DataBlockExtractStrategy.cs:171-174 | the four managed event types: begin text, end text, render text and render image, and no other |
| Extract.FlipY | src/PDF.Data.Extractor/Strategies/DataBlockExtractStrategy.cs:317-320 | page space keeps x and mirrors y against the page height |
| Extract.FlipInvolution | src/PDF.Data.Extractor/Strategies/DataBlockExtractStrategy.cs:317-320 | flipping twice gives the point back |
| Extract.TextArea | src/PDF.Data.Extractor/Strategies/DataBlockExtractStrategy.cs:309-320 | the glyph run's area has the flipped ascent start and end as top corners and the flipped descent end and start as bottom corners |
| Extract.TextAreaUpright | src/PDF.Data.Extractor/Strategies/DataBlockExtractStrategy.cs:317-320 | a run whose ascent line is above its descent line in PDF space has its top above its bottom on the page |
| Extract.ImageArea | src/PDF.Data.Extractor/Strategies/DataBlockExtractStrategy.cs:368-379 | the flipped start point is the bottom-left corner and the matrix entries are the width and height |
| Extract.ImageAreaIsBox | src/PDF.Data.Extractor/Strategies/DataBlockExtractStrategy.cs:373-379 | the image area is the axis-aligned box of that width and height whose top-left lies the height above the flipped start |
| Extract.RenderedText | src/PDF.Data.Extractor/Strategies/DataBlockBuilder.cs:93-106 | the glyph run's text block: a text block with the given Uid, scale `xScale / 100`, the run's text, the measured font's Uid, line size from the font's line size, the marked-content id as its only text-box id, the flipped ascent and descent corners and no children |
| Extract.RenderedImage | src/PDF.Data.Extractor/Strategies/DataBlockBuilder.cs:116-121 | the image block: the given Uid, name `""` when there is none, the resource's Uid when the manager answered, the flipped start point as bottom-left corner and no children |
| Extract.DataBlockExtractStrategy.constructor | src/PDF.Data.Extractor/Strategies/DataBlockExtractStrategy.cs:68-89 | no roots, no open scope; the extractor's font and image managers as given |
| Extract.DataBlockExtractStrategy.BeginText | src/PDF.Data.Extractor/Strategies/DataBlockExtractStrategy.cs:102-113 | a new scope, child of the current one, becomes current; it is a new root exactly when no scope was open |
| Extract.DataBlockExtractStrategy.EndText | src/PDF.Data.Extractor/Strategies/DataBlockExtractStrategy.cs:115-119 | the current scope's parent becomes current; with no open scope it stays none |
| Extract.DataBlockExtractStrategy.TextExtraction | src/PDF.Data.Extractor/Strategies/DataBlockExtractStrategy.cs:290-343 | the font manager is asked first, even with no open scope: afterwards it holds the (name, size) pair, and a pair it already held leaves it unchanged; the glyph run's block, carrying that cached measurement, is appended to the current scope with a new Uid; a disposed font manager or no open scope throws, the exception is swallowed and no block is added |
| Extract.DataBlockExtractStrategy.AppendImage | src/PDF.Data.Extractor/Strategies/DataBlockExtractStrategy.cs:398-401 | the image's block, with the resource given, is appended to the current scope with a new Uid |
| Extract.DataBlockExtractStrategy.ImageExtraction | src/PDF.Data.Extractor/Strategies/DataBlockExtractStrategy.cs:348-409 | with `skipImage` nothing changes, the image manager included; otherwise the image manager stores the image under its digest (an image it already holds leaves it unchanged), and the image block, referring to that stored metadata or to none when the manager threw, goes to the current scope, or to a new root scope that is closed again afterwards |
| Extract.DataBlockExtractStrategy.EventOccurred | src/PDF.Data.Extractor/Strategies/DataBlockExtractStrategy.cs:96-134 | scope events open and close scopes; text and image payloads go to their processors, which alone use the font and the image manager; only a payload with no processor throws `NotImplemented`; a null payload changes nothing |
| Extract.DataBlockExtractStrategy.CompileDataBlocks | src/PDF.Data.Extractor/Strategies/DataBlockExtractStrategy.cs:414-430 | returns `CompileSpec` of the roots |
| Extract.CompileRoots | src/PDF.Data.Extractor/Strategies/DataBlockExtractStrategy.cs:414-430 | every root consolidated in order, their blocks concatenated, then the pipeline once more: `CompileSpec` |
| Extract.GatherRoots | src/PDF.Data.Extractor/Strategies/DataBlockExtractStrategy.cs:417-427 | the root loop returns `RootsGathered` of all roots |
| Extract.ConsolidateRoot | src/PDF.Data.Extractor/Strategies/DataBlockExtractStrategy.cs:420-424 | one root consolidated: the gathering throws its exception or is extended by its blocks |
| Extract.RootsGatheredStep | src/PDF.Data.Extractor/Strategies/DataBlockExtractStrategy.cs:418-427 | one more root: its exception, or its blocks appended |
| Extract.RootsGatheredErr | src/PDF.Data.Extractor/Strategies/DataBlockExtractStrategy.cs:418-427 | a root's exception ends the gathering: every later prefix fails the same way |
| Extract.CompileWithoutStrategies | src/PDF.Data.Extractor/Strategies/DataBlockExtractStrategy.cs:414-430 | with no strategy the page is the pre-order collection of all scopes' blocks, root by root, using no Uid |
| Extract.RootsWithoutStrategies | src/PDF.Data.Extractor/Strategies/DataBlockExtractStrategy.cs:417-427 | the roots part of `CompileWithoutStrategies` |
| Extract.CompileIdentity | src/PDF.Data.Extractor/Strategies/DataBlockExtractStrategy.cs:414-430 | when every strategy merges to its own input, the page is a permutation of all the scopes' blocks |
| Extract.RootsIdentity | src/PDF.Data.Extractor/Strategies/DataBlockExtractStrategy.cs:417-427 | the roots part of `CompileIdentity` |
| Extract.ConstructRelationStruct | src/PDF.Data.Extractor/Strategies/DataBlockExtractStrategy.cs:242-285 | throws `NotImplemented` exactly when some text block of the result has children, because `Compile` throws; otherwise no relation |
| Extractor.DefaultStrategies | src/PDF.Data.Extractor/PDFExtractor.cs:48-54 | three default strategies, each owning exactly the text blocks |
| Extractor.DefaultStrategiesOrder | src/PDF.Data.Extractor/PDFExtractor.cs:48-54 | horizontal, then vertical aligned left, then vertical aligned right, each with the default budget of 5000 passes |
| Extractor.DefaultPipelineNeverGrows | src/PDF.Data.Extractor/PDFExtractor.cs:48-54 | the default pipeline never returns more blocks than it was given |
| Extractor.Concurrency | src/PDF.Data.Extractor/PDFExtractor.cs:57 | the semaphore count is at least 2; a value that wraps negative in the `(int)` cast gives 2 |
| Extractor.RangeIsIndexRange | src/PDF.Data.Extractor/PDFExtractor.cs:131-132 | page `p` is analysed exactly when its index `p - 1` lies in the requested range |
| Extractor.GetOffset | src/PDF.Data.Extractor/PDFExtractor.cs:131-132 | an index from the start is its value; an index from the end and its offset add up to the length |
| Extractor.RangeStartAsWritten | src/PDF.Data.Extractor/PDFExtractor.cs:131 | 1 without a range; otherwise one more than the start offset over `lastPageNumber - 1` pages |
| Extractor.RangeEndAsWritten | src/PDF.Data.Extractor/PDFExtractor.cs:132 | `lastPageNumber` without a range; otherwise one more than the end offset over `lastPageNumber - 1` pages |
| Extractor.RangeStart | src/PDF.Data.Extractor/PDFExtractor.cs:131 | the corrected start: 1 without a range; otherwise one more than the start offset over all the pages |
| Extractor.RangeEnd | src/PDF.Data.Extractor/PDFExtractor.cs:132 | the corrected end: one past the last page without a range; otherwise one more than the end offset over all the pages |
| Extractor.WholeRangeIsDefault | src/PDF.Data.Extractor/PDFExtractor.cs:131-132 | no range and the range `..` both select every page, first to last |
| Extractor.ForwardRangesAgree | src/PDF.Data.Extractor/PDFExtractor.cs:131-132 | for ranges counted from the start, the page numbers as written and as corrected coincide |
| Extractor.Pages | src/PDF.Data.Extractor/PDFExtractor.cs:136-167 | a negative array length throws `Overflow`; asking for a page the document lacks throws; otherwise page `start + k` is at index `k` |
| Extractor.AnalyseSequential | src/PDF.Data.Extractor/PDFExtractor.cs:154-168 | the sequential loop fills the array as `Pages` specifies |
| Extractor.AsyncPages | src/PDF.Data.Extractor/PDFExtractor.cs:136-153 | the parallel path with the results stored: only pages the document has are asked for (`pageNumber <= lastPageNumber`), page `p` goes to index `p - start`, slots past the document stay empty, and only a page before the first throws |
| Extractor.AsyncAgreesWithSequential | src/PDF.Data.Extractor/PDFExtractor.cs:138-167 | within the document the parallel and the sequential path fill the page array alike |
| Extractor.AsyncSkipsMissingPages | src/PDF.Data.Extractor/PDFExtractor.cs:140-141 | a range reaching past the last page: the sequential path throws `IndexOutOfRange`, while the parallel path returns the pages from the start to the last one, in order |
| Extractor.AsyncPagesAsWritten | src/PDF.Data.Extractor/PDFExtractor.cs:136-153 | the asynchronous path as written analyses the pages but stores none of them: every slot stays empty |
| Extractor.AsyncDropsPages | src/PDF.Data.Extractor/PDFExtractor.cs:138-153 | for any non-empty valid range the asynchronous path as written leaves the first page's slot empty where `Pages` fills it |
| Extractor.LastPageSkippedAsWritten | src/PDF.Data.Extractor/PDFExtractor.cs:131-132 | with no range, the loop as written analyses pages 1 to `n - 1` only: the last page is never analysed |
| Extractor.OnePageAsWritten | src/PDF.Data.Extractor/PDFExtractor.cs:131-136 | a one-page document yields no page as written, and its one page as corrected |
| Extractor.EveryPageAnalysed | src/PDF.Data.Extractor/PDFExtractor.cs:131-167 | with the corrected bounds and no range, page `p` of every page `1..n` is analysed and stored at index `p - 1` |
| Extractor.PageArea | src/PDF.Data.Extractor/PDFExtractor.cs:176-179 | the document area runs from the default page's top-left to its bottom-left corner, clockwise |
| Extractor.Present | src/PDF.Data.Extractor/PDFExtractor.cs:180 | the page blocks of the page array in order, no more than its slots, every filled slot's block and nothing else; all of them when every slot is filled |
| Extractor.PresentAppend | src/PDF.Data.Extractor/PDFExtractor.cs:180 | taking the page blocks distributes over concatenated page arrays |
| Extractor.PdfExtractor.constructor | src/PDF.Data.Extractor/PDFExtractor.cs:40-58 | the managers and strategies as given, the semaphore count from `Concurrency`, nothing disposed |
| Extractor.PdfExtractor.Strategies | src/PDF.Data.Extractor/PDFExtractor.cs:123 | the options' override strategies, else the constructor's, else the three defaults over the font manager |
| Extractor.PdfExtractor.AnalyseAsync | src/PDF.Data.Extractor/PDFExtractor.cs:117-192 | the page range's pages analysed with the chosen strategies and stored in order, the parallel path (the default) skipping pages past the document and the sequential one throwing for them; a document block with the name, version, default page area, every cached font and, unless turned off, every cached image; a disposed manager throws |
| Extractor.PdfExtractor.DisposeCoreAsWritten | src/PDF.Data.Extractor/PDFExtractor.cs:237-252 | the first non-finalizer call cancels the lifetime token and disposes the font manager twice; the image manager is never disposed |
| Extractor.PdfExtractor.DisposeCore | src/PDF.Data.Extractor/PDFExtractor.cs:237-252 | the first non-finalizer call cancels the lifetime token and disposes the font manager and the image manager once each; later calls only count |
| Extractor.PdfExtractor.Dispose | src/PDF.Data.Extractor/PDFExtractor.cs:195-199 | after the first `Dispose`, both managers' locks are disposed and the lifetime token is cancelled |
| Fonts.Widths | src/PDF.Data.Extractor/Strategies/FontMetaDataInfoExtractStrategy.cs:127-129 | one width per test glyph, in order |
| Fonts.BuildFontInfo | src/PDF.Data.Extractor/Strategies/FontMetaDataInfoExtractStrategy.cs:119-140 | the new measurement carries the given Uid, the minimum and maximum widths of the nine test glyphs and the line size ascent minus descent; minimum is at most maximum |
| Fonts.FontCache.constructor | src/PDF.Data.Extractor/Strategies/FontMetaDataInfoExtractStrategy.cs:49-54 | both indexes empty, nothing disposed |
| Fonts.FontCache.Lookup | src/PDF.Data.Extractor/Strategies/FontMetaDataInfoExtractStrategy.cs:77-78 | found exactly when the case-folded name and the size are cached, and then the cached measurement |
| Fonts.FontCache.AddOrGetFontInfo | src/PDF.Data.Extractor/Strategies/FontMetaDataInfoExtractStrategy.cs:69-114 | a cached (name, size) comes back unchanged with no state change; otherwise a new measurement with a fresh Uid is filed under its name and size and under its Uid; a disposed lock throws |
| Fonts.FontCache.Get | src/PDF.Data.Extractor/Strategies/FontMetaDataInfoExtractStrategy.cs:143-157 | the measurement of a known Uid; `KeyNotFound` otherwise; a disposed lock throws |
| Fonts.FontCache.GetAll | src/PDF.Data.Extractor/Strategies/FontMetaDataInfoExtractStrategy.cs:160-171 | exactly the values of the by-Uid index, each once; a disposed lock throws |
| Fonts.FontCache.DisposeCore | src/PDF.Data.Extractor/Strategies/FontMetaDataInfoExtractStrategy.cs:184-193 | only the first call disposes the lock, and only when not from the finalizer; the caches are untouched |
| Fonts.FontCache.Dispose | src/PDF.Data.Extractor/Strategies/FontMetaDataInfoExtractStrategy.cs:174-178 | the first `Dispose` disposes the lock |
| Fonts.LookupThenGet | src/PDF.Data.Extractor/Strategies/FontMetaDataInfoExtractStrategy.cs:99-107 | every cached measurement is reachable by its Uid |
| Fonts.LookupIgnoresCase | src/PDF.Data.Extractor/Strategies/FontMetaDataInfoExtractStrategy.cs:52 | font names that differ only in case find the same measurement |
| Blocks.FontGet | src/PDF.Data.Extractor/Strategies/FontMetaDataInfoExtractStrategy.cs:143-157 | found exactly when the Uid is indexed; `KeyNotFound` otherwise |
| Images.NewImageMeta | src/PDF.Data.Extractor/Services/DefaultImageManager.cs:93-103 | the metadata of a new image: its Uid, digest, extension, type and size, and the raw bytes Base64-encoded unless empty |
| Images.ImageCache.constructor | src/PDF.Data.Extractor/Services/DefaultImageManager.cs:39-43 | an empty cache, nothing disposed |
| Images.ImageCache.Cached | src/PDF.Data.Extractor/Services/DefaultImageManager.cs:76-91 | the metadata stored under an image's digest; none for null bytes, an unknown digest or a disposed store |
| Images.ImageCache.AddImageResource | src/PDF.Data.Extractor/Services/DefaultImageManager.cs:65-112 | null bytes throw; a disposed lock throws; a known digest returns the cached entry with no state change; otherwise a new entry with a fresh Uid is filed under the digest |
| Images.ImageCache.GetAll | src/PDF.Data.Extractor/Services/DefaultImageManager.cs:115-126 | exactly the cached entries, each once; a disposed lock throws |
| Images.ImageCache.DisposeCore | src/PDF.Data.Extractor/Services/DefaultImageManager.cs:129-136 | only the first call disposes the lock, and only when not from the finalizer; the cache is untouched |
| Images.ImageCache.Dispose | src/PDF.Data.Extractor/Services/DefaultImageManager.cs:58-62 | the first `Dispose` disposes the lock |

## Left out

- PDF parsing (iText's canvas processor, fonts, image decoding and page sizes): what it reports arrives as plain values in the event data and the document record.
- Floating-point computation: vector length, normalisation, angles, `BlockArea.Overlap`, `TryMergeSiblingBlock` and the vertical strategy's left alignment are function values in `FloatOps`. Coordinates are exact reals, and single-precision rounding is not modelled.
- Concurrency: locks, semaphores, `Interlocked` counters and `Task.Run` are modelled as sequential steps. Of a lock, the model keeps only whether it was disposed.
- Cancellation tokens and `ThrowIfCancellationRequested`: no cancellation ever occurs in the model.
- Logging of swallowed exceptions, finalizers (only their `fromFinalizer` branch is modelled), and `GC.SuppressFinalize`.
- SHA-512 and Base64 are parameters of `AddImageResource` (the digest and the raw-data encoding).
- `CultureInfo` lookups and the metadata flattening in `AnalyzeTags` are parser work. The model takes the list of tags found and keeps the final `Distinct()`.
- Text.FoldAll: case-insensitive comparison folds ASCII letters only, where `OrdinalIgnoreCase` also maps non-ASCII letters. Its users inherit this: `Text.EqualsIgnoreCase`, `Tags.TagEqualsCases` (and through it `Sibling.MergeTags` and `Builder.AnalyzeTags`), and `Fonts.FontCache.Lookup`.
- Extractor.PdfExtractor.constructor: the managers are always the modelled `FontCache` (`FontMetaDataInfoExtractStrategy`) and `ImageCache` (`DefaultImageManager`). The null defaults are not modelled: a null font manager becomes `new DefaultFontManager()`, a class the source does not define, and a null image manager a new `DefaultImageManager`. Other `IFontManager` and `IImageManager` implementations, including ones that are not `IDisposable` (which `Dispose` then skips), are not modelled either; the disposal contracts hold only for the modelled managers.
- The members that `DataTextBlockGroup` does not define but its callers use (`LineSize`, `Magnitude`, `GetWorldArea`, `TextBoxIds`, `GetOrdererChildren`) are a `GroupView` of function values over the group's blocks. `Uid` is a constant field of the group. `PullGroupItems` and `ReleaseItems` are the proximity strategy's pool.
- The multi-block branch of `UpdateGroupInfo` is an unfinished statement in the code. The model leaves the corners unchanged there. The normalised edge units are not stored, because nothing reads them.
- Group.UpdatedShape and Group.TextBlockGroup.UpdateGroupInfo: the centre is computed by the corrected `Center`. The source subtracts the half extents (`CenterAsWritten`), which puts the centre outside the box.
- SingleBlockCentered (Group.SingleBlockCentered): it holds of the corrected centre only. With the source's formula (`CenterAsWritten`) the centre of a single block lies above and left of the block (`CenterAsWrittenOutside`).
- ImageExtraction (Extract.DataBlockExtractStrategy.ImageExtraction) and Extract.DataBlockExtractStrategy.TextExtraction: the managers' locks are not modelled beyond being disposed, and SHA-512 and Base64 stay parameters of the image manager.
- Blocks are compared by value. `DataTextBlock` and `DataBlock` do not override `Equals`, so the source compares references in `TryMerge` (`current.Equals(next)`) and in `MergeChildren`'s `Distinct()`; Sibling.FindPartner and Sibling.MergeChildren agree with the source only while no two distinct blocks carry the same Uid, which the model does not require or prove.
- `ConstructRelationStruct`'s leaf gathering (subtree flattening, childless blocks, first block per Uid) is not modelled: `Compile` throws right after it, so no result depends on it.
- `DataBlockExtractStrategy.Compile` and `ComputeBlockRelation` (the page block, the relation strategies run in parallel tasks, and the `breakOnFirstLoop` argument that this version of `Apply` does not accept) are not part of this model. `ConstructRelationStruct` is modelled for one group result.
- Extract.ConstructRelationStruct: the pulling of groups from the pool and their release in `finally` are not modelled. The function states only the outcome.
- Extractor.PdfExtractor.AnalyseAsync: the analysis of one page is a parameter, and the parallel path is modelled with the page results stored, as in the corrected version below.
- Extractor.PdfExtractor.AnalyseAsync: on the parallel path a range reaching past the document leaves the slots of the missing pages null in the source's page array, which becomes the document's children; a child list in the model holds no null, so those slots are left out of the children (`Present`). They always come after the real pages, so the order of the pages is the same.
- Extractor.PdfExtractor.AnalyseAsync: both paths use the corrected page bounds `RangeStart`/`RangeEnd`. As written (`RangeStartAsWritten`/`RangeEndAsWritten`), the sequential path stops before the last page; the default parallel path enumerates up to `rangeAbsEnd` inclusive and does reach it.
- Extractor.PdfExtractor.AnalyseAsync and Extractor.PdfExtractor.Strategies: page analysis is a pure parameter, so it does not update the font and image managers. The document's fonts and images are those cached when the call starts, where the source also returns what the pages added. The default strategies get a copy of the font manager's by-Uid index taken when the call starts, where the source's strategies query the live manager while merging; so a font first measured during the call is not found by them in the model.
- Extractor.PdfExtractor.Dispose: it calls the corrected `DisposeCore`, so it promises that the image manager is disposed. The source's `Dispose` never disposes it and disposes the font manager twice; that is `DisposeCoreAsWritten`.
- Sibling.MergeText: the line break of the vertical merge is `Environment.NewLine`, which the model fixes to `"\n"`, its value on Unix; on Windows the source inserts `"\r\n"` instead.
- Order.SortByPosition: the contract states sortedness and permutation. It does not state the stability of `OrderBy`/`ThenBy` among blocks with equal positions.
- Sibling.SiblingMerge, Sibling.TryMergeSpec and Sibling.Passes: beyond the partner search, the contracts state bounds (never longer, one Uid per removed block, never empty). They do not state which blocks end up merged. `Sibling.TryMerge` and `Sibling.Merge` are proved equal to these functions.
- Fonts.FontCache.GetAll and Images.ImageCache.GetAll: the order of the returned values (the dictionary's enumeration order) is not modelled. Only their content is.
- The file-name and stream overloads of `AnalyseAsync` (file and stream I/O) are not modelled.

## Findings

| source | as written | input that shows it | evidently intended | confidence | as-written member | corrected member |
|---|---|---|---|---|---|---|
| src/PDF.Data.Extractor/PDFExtractor.cs:131-132 | without a range, pages are analysed for `p < lastPageNumber` and the array has `lastPageNumber - 1` slots | any document of `n >= 1` pages analysed with `Asynchronous` turned off: page `n` is never analysed, and a one-page document yields no page; the default parallel path does reach page `n` | every page from 1 to `n` analysed | not executed | Extractor.LastPageSkippedAsWritten | Extractor.EveryPageAnalysed |
| src/PDF.Data.Extractor/PDFExtractor.cs:138-153 | the asynchronous path awaits the page tasks but never stores their results in `pageBlocks` | any non-empty page range with the default options: the document's page slots stay null | each page block stored at its index, as the sequential path does | not executed | Extractor.AsyncDropsPages | Extractor.PdfExtractor.AnalyseAsync |
| src/PDF.Data.Extractor/PDFExtractor.cs:246-250 | `Dispose` disposes the font manager twice and never the image manager | any first `Dispose()` call: the image manager's lock stays alive | the font manager and the image manager disposed once each | not executed | Extractor.PdfExtractor.DisposeCoreAsWritten | Extractor.PdfExtractor.DisposeCore |
| src/PDF.Data.Extractor/DataTextBlockGroup.cs:232-233 | the centre subtracts half of each extent from the top-left corner | the box from (0, 0) to (2, 2) gets the centre (-1, -1) | the centre (1, 1), inside the box | not executed | Group.CenterAsWrittenOutside | Group.CenterInside |
| src/PDF.Data.Extractor/Strategies/DataTextBlockProximityStrategy.cs:56-58 | the seeding loop advances the group index twice per block | any two blocks: the second goes to group 2 of 2 and the indexer throws | block `i` into group `i`, as the group base strategy does | not executed | Pool.ProximityMergeAsWritten | Pool.ProximityMerge |
