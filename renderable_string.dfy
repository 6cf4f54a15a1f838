/** RenderableString: an immutable renderable body holding a string and an
    optional mime-type, and the charset choice of its `render`. */
module Bodies {
  import opened Lang

  /** MimeTypes.HTML. */
  const HTML: string := "text/html"

  datatype Charset = Charset(name: string)

  /** The stream `render` returns: the bytes of `text` encoded in `charset`
      (the encoding itself is the platform's and is not modelled). */
  datatype RenderedStream = Encoded(text: string, charset: Charset)

  /** The constructor arguments, each with the string its `toString()` returns. */
  datatype JavaObject = JavaObject(toString: string)
  datatype StringBuilder = StringBuilder(chars: string)
  datatype StringBuffer = StringBuffer(chars: string)
  datatype StringWriter = StringWriter(chars: string)

  /** The HTTP result a body is rendered for; only its charset is modelled. */
  class HttpResult {
    var charset: Option<Charset>

    constructor (charset: Option<Charset>)
      ensures this.charset == charset
    {
      this.charset := charset;
    }

    /** `with(charset)`. */
    method With(c: Charset)
      modifies this`charset
      ensures charset == Some(c)
    {
      charset := Some(c);
    }
  }

  /** How many UTF-16 code units Java uses for `c`: two outside the Basic
      Multilingual Plane, one inside. */
  function Utf16Units(c: char): nat {
    if c as int > 0xFFFF then 2 else 1
  }

  /** Java's `String.length()`: the number of UTF-16 code units of `s`. */
  function Utf16Length(s: string): nat {
    if s == [] then 0 else Utf16Units(s[0]) + Utf16Length(s[1..])
  }

  /** A Java length lies between the number of characters and twice that, and
      equals the number of characters exactly when all lie in the Basic
      Multilingual Plane. */
  lemma {:induction false} Utf16LengthBounds(s: string)
    ensures |s| <= Utf16Length(s) <= 2 * |s|
    ensures Utf16Length(s) == |s| <==> forall i :: 0 <= i < |s| ==> s[i] as int <= 0xFFFF
  {
    if s != [] {
      Utf16LengthBounds(s[1..]);
      if Utf16Length(s) == |s| {
        forall i | 0 <= i < |s| ensures s[i] as int <= 0xFFFF {
          if i > 0 { assert s[i] == s[1..][i - 1]; }
        }
      }
      if forall i :: 0 <= i < |s| ==> s[i] as int <= 0xFFFF {
        forall i | 0 <= i < |s[1..]| ensures s[1..][i] as int <= 0xFFFF {
          assert s[1..][i] == s[i + 1];
        }
      }
    }
  }

  /** The stored string `rendered` and the mime-type `declaredType`, null when none was given. */
  datatype RenderableString = RenderableString(rendered: string, declaredType: Option<string>) {

    /** `mimetype()`: text/html when no type was given, the given type otherwise. */
    function Mimetype(): (m: string)
      ensures declaredType.None? ==> m == HTML
      ensures declaredType.Some? ==> m == declaredType.value
    {
      if declaredType.None? then HTML else declaredType.value
    }

    /** `content()`: the stored string. */
    function Content(): (c: string)
      ensures c == rendered
    {
      rendered
    }

    /** `length()`: the Java length of the content, at least its number of characters. */
    function Length(): (n: nat)
      ensures n == Utf16Length(Content())
      ensures |Content()| <= n <= 2 * |Content()|
    {
      Utf16LengthBounds(rendered);
      Utf16Length(rendered)
    }

    /** `requireSerializer()`: the string is already the body. */
    function RequireSerializer(): (b: bool)
      ensures !b
    {
      false
    }

    /** `mustBeChunked()`: the body is never sent in chunks. */
    function MustBeChunked(): (b: bool)
      ensures !b
    {
      false
    }

    /** `setSerializedForm(serialized)`: ignored; content and type stay as they are. */
    function SetSerializedForm(serialized: string): (r: RenderableString)
      ensures r.Content() == Content() && r.Mimetype() == Mimetype()
      ensures r == this
    {
      this
    }

    /** The charset choice of `render(context, result)`. With a result whose
        charset is unset, the platform default is written into the result and
        used; with a result whose charset is set, that charset is kept and
        used; without a result, the platform default is used. */
    method Render(result: HttpResult?, platformDefault: Charset) returns (stream: RenderedStream)
      modifies result
      ensures result == null ==> stream == Encoded(rendered, platformDefault)
      ensures result != null && old(result.charset).None? ==>
        result.charset == Some(platformDefault) && stream == Encoded(rendered, platformDefault)
      ensures result != null && old(result.charset).Some? ==>
        result.charset == old(result.charset) && stream == Encoded(rendered, result.charset.value)
    {
      if result != null {
        if result.charset.None? {
          result.With(platformDefault);
        }
        stream := Encoded(rendered, result.charset.value);
      } else {
        stream := Encoded(rendered, platformDefault);
      }
    }
  }

  /** `RenderableString(content, type)`. */
  function OfStringWithType(content: string, declaredType: Option<string>): (r: RenderableString)
    ensures r.Content() == content && r.Length() == Utf16Length(content)
    ensures r.Mimetype() == if declaredType.Some? then declaredType.value else HTML
  {
    RenderableString(content, declaredType)
  }

  /** `RenderableString(content)`: no type, so text/html. */
  function OfString(content: string): (r: RenderableString)
    ensures r.Content() == content && r.Mimetype() == HTML
  {
    OfStringWithType(content, None)
  }

  /** `RenderableString(object)`: the object's `toString()`, as text/html. */
  function OfObject(obj: JavaObject): (r: RenderableString)
    ensures r.Content() == obj.toString && r.Mimetype() == HTML
  {
    OfStringWithType(obj.toString, None)
  }

  /** `RenderableString(object, type)`: the object's `toString()` with the given type. */
  function OfObjectWithType(obj: JavaObject, declaredType: Option<string>): (r: RenderableString)
    ensures r.Content() == obj.toString
    ensures r.Mimetype() == if declaredType.Some? then declaredType.value else HTML
  {
    OfStringWithType(obj.toString, declaredType)
  }

  /** `RenderableString(StringBuilder)`: what the builder holds, as text/html. */
  function OfStringBuilder(content: StringBuilder): (r: RenderableString)
    ensures r.Content() == content.chars && r.Mimetype() == HTML
  {
    OfStringWithType(content.chars, None)
  }

  /** `RenderableString(StringBuffer)`: what the buffer holds, as text/html. */
  function OfStringBuffer(content: StringBuffer): (r: RenderableString)
    ensures r.Content() == content.chars && r.Mimetype() == HTML
  {
    OfStringWithType(content.chars, None)
  }

  /** `RenderableString(StringWriter)`: what the writer holds, as text/html. */
  function OfStringWriter(content: StringWriter): (r: RenderableString)
    ensures r.Content() == content.chars && r.Mimetype() == HTML
  {
    OfStringWithType(content.chars, None)
  }
}
