/** The flyweight demo: one shared TextStyle object per style name, handed
    out by a factory, and text ranges that refer to it. */
module Flyweight {

  /** The flyweight: an object whose identity is shared between users. */
  class TextStyle {
    const name: string

    constructor (name: string)
      ensures this.name == name
    {
      this.name := name;
    }

    /** fmt.Sprintf("[%s %s]", name, text). */
    function Format(text: string): (r: string)
      ensures |r| == |name| + |text| + 3
      ensures r[0] == '[' && r[1..|name| + 1] == name && r[|name| + 1] == ' '
      ensures r[|name| + 2..|r| - 1] == text && r[|r| - 1] == ']'
    {
      "[" + name + " " + text + "]"
    }
  }

  /** Two formatted texts of one style are equal only when the texts are. */
  lemma FormatInjective(style: TextStyle, a: string, b: string)
    ensures style.Format(a) == style.Format(b) <==> a == b
  {
    if style.Format(a) == style.Format(b) {
      var n := |style.name|;
      assert a == style.Format(a)[n + 2..|style.Format(a)| - 1];
    }
  }

  class TextStyleFactory {
    var styles: map<string, TextStyle>

    /** Every style is stored under its own name. */
    ghost predicate Valid()
      reads this, styles.Values
    {
      forall name :: name in styles ==> styles[name].name == name
    }

    /** The demo's factory with `make(map[string]*TextStyle)`. */
    constructor ()
      ensures Valid() && styles == map[]
    {
      styles := map[];
    }

    /** The style already handed out for the name, or a new one that is stored
        for the next request. */
    method GetTextStyle(name: string) returns (style: TextStyle)
      requires Valid()
      modifies this
      ensures Valid() && style.name == name
      ensures name in old(styles) ==> style == old(styles)[name] && styles == old(styles)
      ensures name !in old(styles) ==> fresh(style) && styles == old(styles)[name := style]
    {
      if name in styles {
        return styles[name];
      }
      style := new TextStyle(name);
      styles := styles[name := style];
    }
  }

  /** A range of text within a document, formatted with its (shared) style. */
  datatype TextRange = TextRange(start: int, end: int, text: string, style: TextStyle) {
    /** The range's own text, bracketed after its style's name. The first
        ensures links the range to its style's Format, so that
        FormatInjective applies to ranges; the others give the layout. */
    function Format(): (r: string)
      ensures r == style.Format(text)
      ensures |r| == |style.name| + |text| + 3
      ensures r[..|style.name| + 2] == "[" + style.name + " "
      ensures r[|style.name| + 2..|r| - 1] == text && r[|r| - 1] == ']'
    {
      style.Format(text)
    }
  }

  /** NewTextRange stores its arguments as they are. */
  function NewTextRange(start: int, end: int, text: string, style: TextStyle): (r: TextRange)
    ensures r.start == start && r.end == end && r.text == text && r.style == style
  {
    TextRange(start, end, text, style)
  }

  /** Ranges made with one style share that style object, and they format
      alike exactly when their texts are equal, wherever they lie. */
  lemma SharedStyleRanges(start1: int, end1: int, text1: string,
                          start2: int, end2: int, text2: string, style: TextStyle)
    ensures NewTextRange(start1, end1, text1, style).style == NewTextRange(start2, end2, text2, style).style
    ensures NewTextRange(start1, end1, text1, style).Format() == NewTextRange(start2, end2, text2, style).Format()
            <==> text1 == text2
  {
    FormatInjective(style, text1, text2);
  }

  /** The demo: two ranges asking for "Bold" share one style object. */
  method Demo() returns (range1: TextRange, range2: TextRange)
    ensures range1.style == range2.style
    ensures range1.Format() == "[Bold Hello]" && range2.Format() == "[Bold World]"
  {
    var factory := new TextStyleFactory();
    var bold1 := factory.GetTextStyle("Bold");
    range1 := NewTextRange(0, 5, "Hello", bold1);
    var bold2 := factory.GetTextStyle("Bold");
    range2 := NewTextRange(6, 11, "World", bold2);
  }
}
