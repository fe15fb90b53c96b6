/** The `DesignTypes` enumeration of CardView.swift: its raw strings and nominal heights. */
module DesignTypes {
  import opened Wrappers

  datatype DesignType =
    | SmallDisplayCard     // "HC1"
    | BigDisplayCard       // "HC3"
    | ImageCard            // "HC5"
    | SmallCardWithArrow   // "HC6"
    | DynamicWidthCard     // "HC9"

  /** The enum's `rawValue`. */
  function RawValue(d: DesignType): (s: string)
    ensures |s| == 3 && s[..2] == "HC"
  {
    match d
    case SmallDisplayCard => "HC1"
    case BigDisplayCard => "HC3"
    case ImageCard => "HC5"
    case SmallCardWithArrow => "HC6"
    case DynamicWidthCard => "HC9"
  }

  /** The failable initialiser `DesignTypes(rawValue:)`; any other string gives nil. */
  function FromRawValue(s: string): (r: Option<DesignType>)
    ensures r.Some? ==> RawValue(r.value) == s
  {
    if s == "HC1" then Some(SmallDisplayCard)
    else if s == "HC3" then Some(BigDisplayCard)
    else if s == "HC5" then Some(ImageCard)
    else if s == "HC6" then Some(SmallCardWithArrow)
    else if s == "HC9" then Some(DynamicWidthCard)
    else None
  }

  /** Decoding an encoded design type gives it back. */
  lemma RawValueRoundTrip(d: DesignType)
    ensures FromRawValue(RawValue(d)) == Some(d)
  {
  }

  /** No two design types share a raw string. */
  lemma RawValueInjective(d1: DesignType, d2: DesignType)
    requires RawValue(d1) == RawValue(d2)
    ensures d1 == d2
  {
  }

  /** Decoding succeeds exactly on the five raw strings. */
  lemma FromRawValueExactlyOnRawValues(s: string)
    ensures FromRawValue(s).Some? <==> exists d :: RawValue(d) == s
  {
  }

  /** `backgroundHeight`: the fixed nominal height of each design type, in points. */
  function BackgroundHeight(d: DesignType): (h: nat)
    ensures 60 <= h <= 250
    ensures h == 60 <==> (d == SmallDisplayCard || d == SmallCardWithArrow)
  {
    match d
    case SmallDisplayCard => 60
    case SmallCardWithArrow => 60
    case BigDisplayCard => 250
    case ImageCard => 195
    case DynamicWidthCard => 200
  }

  /** The height table, and that only the two small variants share a height. */
  lemma BackgroundHeightTable(d1: DesignType, d2: DesignType)
    ensures BackgroundHeight(SmallDisplayCard) == 60 && BackgroundHeight(SmallCardWithArrow) == 60
    ensures BackgroundHeight(BigDisplayCard) == 250 && BackgroundHeight(ImageCard) == 195
    ensures BackgroundHeight(DynamicWidthCard) == 200
    ensures BackgroundHeight(d1) == BackgroundHeight(d2) <==>
              d1 == d2 || (BackgroundHeight(d1) == 60 && BackgroundHeight(d2) == 60)
  {
  }
}
