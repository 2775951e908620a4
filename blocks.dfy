/**
 * The immutable block records: the `DataBlock` base, text, image, relation,
 * page and document blocks, the relation group of text blocks, and the font and
 * image metadata records. A `Guid` is a natural number; `Guid.Empty` is 0.
 * C#'s `null` collections are `None`; `ToArray` copies keep order, so a copy is
 * the same sequence.
 */
module Blocks {
  import opened Wrappers
  import opened Geometry
  import opened Tags

  type Guid = nat

  const EmptyGuid: Guid := 0

  /** `BlockTypeEnum` (NoBlock is `None`). */
  datatype BlockType = NoBlock | Text | Image | Column | Document | Page | Relation

  /** `BlockRelationTypeEnum` (NoRelation is `None`). */
  datatype BlockRelationType = NoRelation | Group | SectionId

  /** `TextFontMetaData`. */
  datatype FontMeta = FontMeta(uid: Guid, name: string, fontSize: real,
                               minWidth: real, maxWidth: real, lineSizePoint: real)

  /** `ImageMetaData`. */
  datatype ImageMeta = ImageMeta(uid: Guid, imageExtension: string, imageType: string,
                                 rawBase64Data: Option<seq<bv8>>, width: real, height: real,
                                 hash: string)

  /** The attributes shared by every `IDataTextBlock`. */
  datatype TextAttrs = TextAttrs(
    lineSize: real,
    fontLevel: real,
    pointValue: real,
    scale: real,
    text: string,
    magnitude: real,
    fontInfoUid: Guid,
    spaceWidth: real,
    textBoxIds: Option<seq<real>>)

  /** What a block's concrete class adds to the `DataBlock` base. */
  datatype Detail =
    | TextDetail(attrs: TextAttrs)                  // DataTextBlock
    | GroupDetail(attrs: TextAttrs)                 // DataTextBlockRelationGroup
    | ImageDetail(name: string, imageResourceUid: Option<Guid>)
    | RelationDetail(blockRelationType: BlockRelationType, customGroupType: string,
                     blocksContained: Option<seq<Guid>>)
    | PageDetail(number: int, rotation: int, relations: seq<DataBlock>)
    | DocumentDetail(fileName: Option<string>, pdfVersion: string, author: string,
                     keywords: string, producer: string, subject: string, title: string,
                     fonts: seq<FontMeta>, images: seq<ImageMeta>)

  /**
   * A block's `Children`: null or a sequence. (A dedicated type rather than an
   * `Option`, so that recursion into children is seen to terminate.)
   */
  datatype Children = NullChildren | ChildList(items: seq<DataBlock>)
  {
    /** `children ?? Array.Empty<DataBlock>()`. */
    function Items(): (r: seq<DataBlock>)
      ensures NullChildren? ==> r == []
    {
      if ChildList? then items else []
    }
  }

  /** A block: the base fields and its concrete class's own fields. */
  datatype DataBlock = DataBlock(
    uid: Guid,
    blockType: BlockType,
    area: BlockArea,
    tags: Option<seq<DataTag>>,
    children: Children,
    detail: Detail)
  {
    /** The block implements `IDataTextBlock`. */
    predicate IsTextual()
    {
      detail.TextDetail? || detail.GroupDetail?
    }

    /** The block is a `DataTextBlock`. */
    predicate IsTextBlock()
    {
      detail.TextDetail?
    }

    function Attrs(): TextAttrs
      requires IsTextual()
    {
      detail.attrs
    }

    /** The block's `Type` is the one its concrete class passes to the base. */
    predicate WellTyped()
    {
      blockType == TypeOf(detail)
    }
  }

  function TypeOf(d: Detail): BlockType
  {
    match d
    case TextDetail(_) => Text
    case GroupDetail(_) => Relation
    case ImageDetail(_, _) => Image
    case RelationDetail(_, _, _) => Relation
    case PageDetail(_, _, _) => Page
    case DocumentDetail(_, _, _, _, _, _, _, _, _) => Document
  }

  /** `null` becomes the empty sequence (`x ?? Array.Empty<T>()`). */
  function OrEmpty<T>(s: Option<seq<T>>): (r: seq<T>)
    ensures s.None? ==> r == []
    ensures s.Some? ==> r == s.value
  {
    if s.Some? then s.value else []
  }

  /** The base constructor `DataBlock(uid, type, area, tags, children)`. */
  function NewDataBlock(uid: Guid, blockType: BlockType, area: BlockArea,
                        tags: Option<seq<DataTag>>, children: Children,
                        detail: Detail): (b: DataBlock)
    ensures b.uid == uid && b.blockType == blockType && b.area == area
    ensures b.tags == tags && b.children == children && b.detail == detail
  {
    DataBlock(uid, blockType, area, tags, children, detail)
  }

  /** `new DataTextBlock(...)`. */
  function NewTextBlock(uid: Guid, fontLevel: real, pointValue: real, lineSize: real,
                        scale: real, magnitude: real, text: string, fontInfoUid: Guid,
                        spaceWidth: real, area: BlockArea, textBoxId: Option<seq<real>>,
                        tags: Option<seq<DataTag>>, children: Children): (b: DataBlock)
    ensures b.WellTyped() && b.IsTextBlock() && b.blockType == Text
    ensures b.uid == uid && b.area == area && b.tags == tags && b.children == children
    ensures b.Attrs() == TextAttrs(lineSize, fontLevel, pointValue, scale, text, magnitude,
                                   fontInfoUid, spaceWidth, textBoxId)
  {
    NewDataBlock(uid, Text, area, tags, children,
                 TextDetail(TextAttrs(lineSize, fontLevel, pointValue, scale, text, magnitude,
                                      fontInfoUid, spaceWidth, textBoxId)))
  }

  /** `new DataImageBlock(uid, name, imageResourceUid, area, tags, children)`. */
  function NewImageBlock(uid: Guid, name: string, imageResourceUid: Option<Guid>, area: BlockArea,
                         tags: seq<DataTag>, children: Children): (b: DataBlock)
    ensures b.WellTyped() && b.blockType == Image && b.detail.ImageDetail?
    ensures b.uid == uid && b.area == area && b.tags == Some(tags) && b.children == children
    ensures b.detail.name == name && b.detail.imageResourceUid == imageResourceUid
  {
    NewDataBlock(uid, Image, area, Some(tags), children, ImageDetail(name, imageResourceUid))
  }

  /** `new DataRelationBlock(...)`: it refers to blocks by Uid and owns no children. */
  function NewRelationBlock(uid: Guid, area: BlockArea, blockRelationType: BlockRelationType,
                            customGroupType: string, blocksContained: Option<seq<Guid>>): (b: DataBlock)
    ensures b.WellTyped() && b.blockType == Relation && b.detail.RelationDetail?
    ensures b.tags.None? && b.children.NullChildren?
    ensures b.uid == uid && b.area == area
    ensures b.detail.blocksContained == blocksContained
    ensures b.detail.blockRelationType == blockRelationType && b.detail.customGroupType == customGroupType
  {
    NewDataBlock(uid, Relation, area, None, NullChildren,
                 RelationDetail(blockRelationType, customGroupType, blocksContained))
  }

  /** `new DataPageBlock(...)`: null relations become an empty collection. */
  function NewPageBlock(uid: Guid, number: int, rotation: int, area: BlockArea,
                        relations: Option<seq<DataBlock>>, children: Children): (b: DataBlock)
    ensures b.WellTyped() && b.blockType == Page && b.detail.PageDetail?
    ensures b.tags.None? && b.children == children && b.uid == uid && b.area == area
    ensures b.detail.number == number && b.detail.rotation == rotation
    ensures relations.None? ==> b.detail.relations == []
    ensures relations.Some? ==> b.detail.relations == relations.value
  {
    NewDataBlock(uid, Page, area, None, children, PageDetail(number, rotation, OrEmpty(relations)))
  }

  /** `new DataDocumentBlock(...)`: null fonts or images become empty collections. */
  function NewDocumentBlock(uid: Guid, fileName: Option<string>, area: BlockArea,
                            children: Children, pdfVersion: string, author: string,
                            keywords: string, producer: string, subject: string, title: string,
                            fonts: Option<seq<FontMeta>>, images: Option<seq<ImageMeta>>): (b: DataBlock)
    ensures b.WellTyped() && b.blockType == Document && b.detail.DocumentDetail?
    ensures b.tags.None? && b.children == children && b.uid == uid && b.area == area
    ensures b.detail.fileName == fileName && b.detail.pdfVersion == pdfVersion
    ensures b.detail.author == author && b.detail.keywords == keywords && b.detail.producer == producer
    ensures b.detail.subject == subject && b.detail.title == title
    ensures fonts.None? ==> b.detail.fonts == []
    ensures fonts.Some? ==> b.detail.fonts == fonts.value
    ensures images.None? ==> b.detail.images == []
    ensures images.Some? ==> b.detail.images == images.value
  {
    NewDataBlock(uid, Document, area, None, children,
                 DocumentDetail(fileName, pdfVersion, author, keywords, producer, subject, title,
                                OrEmpty(fonts), OrEmpty(images)))
  }

  /** The attributes of a relation group without a first child: defaults and an empty text. */
  const DefaultAttrs: TextAttrs := TextAttrs(0.0, 0.0, 0.0, 0.0, "", 0.0, EmptyGuid, 0.0, None)

  /**
   * `new DataTextBlockRelationGroup(uid, area, tags, children)`: a relation that
   * owns its text children and copies the text attributes of the first one.
   */
  function NewRelationGroup(uid: Guid, area: BlockArea, tags: Option<seq<DataTag>>,
                            children: Children): (b: DataBlock)
    requires forall c :: c in children.Items() ==> c.IsTextual()
    ensures b.WellTyped() && b.blockType == Relation && b.IsTextual() && !b.IsTextBlock()
    ensures b.uid == uid && b.area == area && b.tags == tags && b.children == children
    ensures children.Items() == [] ==> b.Attrs().text == "" && b.Attrs() == DefaultAttrs
    ensures children.Items() != [] ==> b.Attrs() == children.Items()[0].Attrs()
  {
    var attrs := if children.Items() == [] then DefaultAttrs else children.Items()[0].Attrs();
    NewDataBlock(uid, Relation, area, tags, children, GroupDetail(attrs))
  }

  /** Only the first child decides a relation group's text attributes. */
  lemma {:induction false} RelationGroupFirstChildOnly(uid: Guid, area: BlockArea, tags: Option<seq<DataTag>>,
                                                        first: DataBlock, rest1: seq<DataBlock>, rest2: seq<DataBlock>)
    requires first.IsTextual()
    requires forall c :: c in rest1 ==> c.IsTextual()
    requires forall c :: c in rest2 ==> c.IsTextual()
    ensures NewRelationGroup(uid, area, tags, ChildList([first] + rest1)).Attrs()
         == NewRelationGroup(uid, area, tags, ChildList([first] + rest2)).Attrs()
         == first.Attrs()
  {
    assert ([first] + rest1)[0] == first && ([first] + rest2)[0] == first;
  }

  /**
   * `IFontManager.Get(uid)` over the font cache's by-Uid index: the entry, or
   * `KeyNotFoundException` for an unknown Uid.
   */
  function FontGet(byUid: map<Guid, FontMeta>, uid: Guid): (r: Result<FontMeta>)
    ensures uid in byUid <==> r.Ok?
    ensures r.Ok? ==> r.value == byUid[uid]
    ensures r.Err? ==> r.error == KeyNotFound
  {
    if uid in byUid then Ok(byUid[uid]) else Err(KeyNotFound)
  }
}
