/** PDF tags attached to blocks and their case-insensitive, type-driven equality. */
module Tags {
  import opened Wrappers
  import opened Text

  /** `DataTagTypeEnum`. */
  datatype DataTagType = NoTag | Raw | Lang | Annotation | Prop  // NoTag is `None`

  /**
   * The concrete tag classes: `DataRawTag(raw)`, `DataLangTag(lang, raw)` and
   * `DataPropTag(prop, value, raw)`. Each constructor fixes the tag type.
   */
  datatype DataTag =
    | RawTag(raw: string)
    | LangTag(lang: string, raw: string)
    | PropTag(prop: string, value: string, raw: string)
  {
    function Type(): DataTagType
    {
      match this
      case RawTag(_) => Raw
      case LangTag(_, _) => Lang
      case PropTag(_, _, _) => Prop
    }
  }

  /** `new DataLangTag(lang, raw)`. */
  function NewLangTag(lang: string, raw: string): (t: DataTag)
    ensures t.Type() == Lang && t.LangTag?
    ensures t.lang == lang && t.raw == raw
  {
    LangTag(lang, raw)
  }

  /** `new DataPropTag(prop, value, raw)`. */
  function NewPropTag(prop: string, value: string, raw: string): (t: DataTag)
    ensures t.Type() == Prop && t.PropTag?
    ensures t.prop == prop && t.value == value && t.raw == raw
  {
    PropTag(prop, value, raw)
  }

  /**
   * The `OnEquals` override of the receiver's class: the base class accepts any
   * tag, a language tag needs a language tag with the same language, a property
   * tag a property tag with the same property and value (all ignoring case).
   */
  predicate OnEquals(self: DataTag, other: DataTag)
  {
    match self
    case RawTag(_) => true
    case LangTag(lang, _) => other.LangTag? && EqualsIgnoreCase(lang, other.lang)
    case PropTag(prop, value, _) =>
      other.PropTag? && EqualsIgnoreCase(prop, other.prop) && EqualsIgnoreCase(value, other.value)
  }

  /**
   * `DataTag.Equals(object)`. `obj` is `None` when the argument is null or not a tag.
   */
  predicate TagEquals(self: DataTag, obj: Option<DataTag>)
  {
    obj.Some? &&
    self.Type() == obj.value.Type() &&
    EqualsIgnoreCase(self.raw, obj.value.raw) &&
    OnEquals(self, obj.value)
  }

  /** Equality between two tags that are both present. */
  predicate Same(a: DataTag, b: DataTag)
  {
    TagEquals(a, Some(b))
  }

  /**
   * The outcome of `Equals`, case by case: false for a non-tag, false across
   * types, and otherwise the case-insensitive comparison of every string field.
   */
  lemma TagEqualsCases(self: DataTag, obj: Option<DataTag>)
    ensures obj.None? ==> !TagEquals(self, obj)
    ensures obj.Some? && self.Type() != obj.value.Type() ==> !TagEquals(self, obj)
    ensures obj.Some? && self.RawTag? && obj.value.RawTag? ==>
      (TagEquals(self, obj) <==> EqualsIgnoreCase(self.raw, obj.value.raw))
    ensures obj.Some? && self.LangTag? && obj.value.LangTag? ==>
      (TagEquals(self, obj) <==>
         EqualsIgnoreCase(self.raw, obj.value.raw) && EqualsIgnoreCase(self.lang, obj.value.lang))
    ensures obj.Some? && self.PropTag? && obj.value.PropTag? ==>
      (TagEquals(self, obj) <==>
         EqualsIgnoreCase(self.raw, obj.value.raw) && EqualsIgnoreCase(self.prop, obj.value.prop)
         && EqualsIgnoreCase(self.value, obj.value.value))
  {
  }

  /** Tag equality is an equivalence relation. */
  /** Tag equality is transitive, for all tags at once. */
  lemma SameTransitive()
    ensures forall a, b, c :: Same(a, b) && Same(b, c) ==> Same(a, c)
  {
    forall a, b, c ensures Same(a, b) && Same(b, c) ==> Same(a, c) {
      SameIsEquivalence(a, b, c);
    }
  }

  lemma {:induction false} SameIsEquivalence(a: DataTag, b: DataTag, c: DataTag)
    ensures Same(a, a)
    ensures Same(a, b) ==> Same(b, a)
    ensures Same(a, b) && Same(b, c) ==> Same(a, c)
  {
    EqualsIgnoreCaseIsEquivalence(a.raw, b.raw, c.raw);
    if a.LangTag? && b.LangTag? && c.LangTag? {
      EqualsIgnoreCaseIsEquivalence(a.lang, b.lang, c.lang);
    }
    if a.PropTag? && b.PropTag? && c.PropTag? {
      EqualsIgnoreCaseIsEquivalence(a.prop, b.prop, c.prop);
      EqualsIgnoreCaseIsEquivalence(a.value, b.value, c.value);
    }
  }

  /** Two tags of the same class whose strings differ only in letter case are equal. */
  lemma {:induction false} CaseInsensitiveTags(a: DataTag, b: DataTag)
    requires a.Type() == b.Type()
    requires FoldAll(a.raw) == FoldAll(b.raw)
    requires a.LangTag? ==> FoldAll(a.lang) == FoldAll(b.lang)
    requires a.PropTag? ==> FoldAll(a.prop) == FoldAll(b.prop) && FoldAll(a.value) == FoldAll(b.value)
    ensures Same(a, b)
  {
  }

  /**
   * `DataTag.GetHashCode`: `HashCode.Combine(Type, OnGetHashCode())`, where no
   * subclass overrides `OnGetHashCode` (0). The process-seeded combiner is a parameter.
   */
  function HashCode(t: DataTag, combine: (DataTagType, int) -> int): (h: int)
    ensures forall u: DataTag :: u.Type() == t.Type() ==> h == combine(u.Type(), 0)
  {
    combine(t.Type(), 0)
  }

  /** Equal tags have equal hash codes, whatever the combiner. */
  lemma {:induction false} EqualTagsEqualHashes(a: DataTag, b: DataTag, combine: (DataTagType, int) -> int)
    requires Same(a, b)
    ensures HashCode(a, combine) == HashCode(b, combine)
  {
    assert a.Type() == b.Type();
  }
}
