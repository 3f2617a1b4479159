/**
  The payload formatter (generateQRContent) and the blank-content test
  (`!config.content.trim()`) that guards generation.
 */
module Payload {
  import opened Basics
  import opened Config

  // ---------------------------------------------------------------------------
  // String.prototype.trim
  // ---------------------------------------------------------------------------

  /** The characters `trim` removes: ECMAScript WhiteSpace (TAB, VT, FF, ZWNBSP and the
      Unicode Space_Separator category) and LineTerminator (LF, CR, LS, PS). */
  predicate IsJsSpace(ch: char) {
    var u := ch as int;
    || u == 0x09 || u == 0x0B || u == 0x0C || u == 0x20 || u == 0xA0 || u == 0xFEFF
    || u == 0x1680 || (0x2000 <= u <= 0x200A) || u == 0x202F || u == 0x205F || u == 0x3000
    || u == 0x0A || u == 0x0D || u == 0x2028 || u == 0x2029
  }

  /** Drops leading white space. */
  function TrimStart(s: string): (r: string)
    ensures |r| <= |s| && r == s[|s| - |r|..]
    ensures forall i :: 0 <= i < |s| - |r| ==> IsJsSpace(s[i])
    ensures r == [] || !IsJsSpace(r[0])
    decreases |s|
  {
    if |s| > 0 && IsJsSpace(s[0]) then TrimStart(s[1..]) else s
  }

  /** Drops trailing white space. */
  function TrimEnd(s: string): (r: string)
    ensures |r| <= |s| && r == s[..|r|]
    ensures forall i :: |r| <= i < |s| ==> IsJsSpace(s[i])
    ensures r == [] || !IsJsSpace(r[|r| - 1])
    decreases |s|
  {
    if |s| > 0 && IsJsSpace(s[|s| - 1]) then TrimEnd(s[..|s| - 1]) else s
  }

  /** `s.trim()` */
  function Trim(s: string): string {
    TrimEnd(TrimStart(s))
  }

  /** `!s.trim()`: the trimmed string is empty, i.e. falsy. */
  predicate IsBlank(s: string) {
    Trim(s) == ""
  }

  /** Content is blank exactly when every character is white space; so the empty string is
      blank, and any string holding one visible character is not. */
  lemma {:induction false} BlankIffAllSpace(s: string)
    ensures IsBlank(s) <==> forall i :: 0 <= i < |s| ==> IsJsSpace(s[i])
  {
    if forall i :: 0 <= i < |s| ==> IsJsSpace(s[i]) {
      AllSpaceIsBlank(s);
    } else {
      var i :| 0 <= i < |s| && !IsJsSpace(s[i]);
      VisibleIsNotBlank(s, i);
    }
  }

  lemma {:induction false} AllSpaceIsBlank(s: string)
    requires forall i :: 0 <= i < |s| ==> IsJsSpace(s[i])
    ensures IsBlank(s)
  {
    var t := TrimStart(s);
    assert t == [];
  }

  lemma {:induction false} VisibleIsNotBlank(s: string, i: nat)
    requires i < |s| && !IsJsSpace(s[i])
    ensures !IsBlank(s)
  {
    var t := TrimStart(s);
    var k := |s| - |t|;
    assert k <= i;
    var j := i - k;
    assert t[j] == s[i];
    assert !IsJsSpace(t[j]);
    var e := TrimEnd(t);
    assert j < |e|;
  }

  /** Trimming removes white space only from the two ends: the result is a contiguous piece of
      the input with no white space at either end. */
  lemma {:induction false} TrimIsInnerPiece(s: string)
    ensures exists a, b :: 0 <= a <= b <= |s| && Trim(s) == s[a..b]
    ensures Trim(s) == [] || (!IsJsSpace(Trim(s)[0]) && !IsJsSpace(Trim(s)[|Trim(s)| - 1]))
  {
    var t := TrimStart(s);
    var e := TrimEnd(t);
    var a := |s| - |t|;
    assert e == s[a..a + |e|];
    if e != [] {
      assert e[0] == t[0];
    }
  }

  // ---------------------------------------------------------------------------
  // generateQRContent
  // ---------------------------------------------------------------------------

  const HttpsScheme := "https://"
  const MailtoScheme := "mailto:"
  const TelScheme := "tel:"
  const SmsScheme := "sms:"
  const GeoScheme := "geo:"
  /** The WiFi network-configuration string around the network name: WPA, a fixed password, not hidden. */
  const WifiHead := "WIFI:T:WPA;S:"
  const WifiTail := ";P:password;H:false;;"
  /** A version 3.0 vCard with only its formatted-name line. */
  const VCardHead := "BEGIN:VCARD\nVERSION:3.0\nFN:"
  const VCardTail := "\nEND:VCARD"

  /** `content.startsWith('http')` */
  predicate StartsWithHttp(s: string) {
    "http" <= s
  }

  /** generateQRContent: the literal string handed to the encoder. */
  function Format(t: QrType, content: string): string {
    match t
    case Url => if StartsWithHttp(content) then content else HttpsScheme + content
    case Email => MailtoScheme + content
    case Phone => TelScheme + content
    case Sms => SmsScheme + content
    case Wifi => WifiHead + content + WifiTail
    case VCard => VCardHead + content + VCardTail
    case Location => GeoScheme + content
    case Event => content
    case Text => content
  }

  /** The fixed text a type puts before the content (empty for pass-through types). */
  function Head(t: QrType): string {
    match t
    case Url => HttpsScheme
    case Email => MailtoScheme
    case Phone => TelScheme
    case Sms => SmsScheme
    case Wifi => WifiHead
    case VCard => VCardHead
    case Location => GeoScheme
    case Event => ""
    case Text => ""
  }

  /** The fixed text a type puts after the content. */
  function Tail(t: QrType): string {
    match t
    case Wifi => WifiTail
    case VCard => VCardTail
    case _ => ""
  }

  /** Recovers the content from a payload of the given type, or None when the payload does
      not have that type's shape. For url the payload itself is returned when it already
      starts with "http" (such content is passed through). */
  function Parse(t: QrType, payload: string): (r: Option<string>)
    ensures r.Some? ==> |r.value| <= |payload|
  {
    if t == Url then
      if StartsWithHttp(payload) then Some(payload) else None
    else if |Head(t)| + |Tail(t)| <= |payload| && Head(t) <= payload
      && payload[|payload| - |Tail(t)|..] == Tail(t)
    then Some(payload[|Head(t)|..|payload| - |Tail(t)|])
    else None
  }

  /** Every type except url wraps its content in a fixed head and tail; url either passes
      content starting with "http" through or prepends "https://". */
  lemma {:induction false} FormatShape(t: QrType, content: string)
    ensures t != Url ==> Format(t, content) == Head(t) + content + Tail(t)
    ensures t == Url && StartsWithHttp(content) ==> Format(t, content) == content
    ensures t == Url && !StartsWithHttp(content) ==> Format(t, content) == HttpsScheme + content
  {
    match t
    case Text =>
      assert content + "" == content;
    case Event =>
      assert content + "" == content;
    case Email =>
      assert MailtoScheme + content + "" == MailtoScheme + content;
    case Phone =>
      assert TelScheme + content + "" == TelScheme + content;
    case Sms =>
      assert SmsScheme + content + "" == SmsScheme + content;
    case Location =>
      assert GeoScheme + content + "" == GeoScheme + content;
    case _ =>
  }

  /** The literal head and tail of each type: the url scheme, `mailto:`, `tel:`, `sms:`,
      `geo:`, the WPA network string, the vCard 3.0 with one FN line; text and event add
      nothing. */
  lemma TypeAffixes(t: QrType)
    ensures (Head(t), Tail(t)) == match t
      case Url => ("https://", "")
      case Email => ("mailto:", "")
      case Phone => ("tel:", "")
      case Sms => ("sms:", "")
      case Location => ("geo:", "")
      case Wifi => ("WIFI:T:WPA;S:", ";P:password;H:false;;")
      case VCard => ("BEGIN:VCARD\nVERSION:3.0\nFN:", "\nEND:VCARD")
      case Text => ("", "")
      case Event => ("", "")
  {
  }

  /** Round trip: parsing a formatted payload gives the content back, for every type but url. */
  lemma {:induction false} ParseFormat(t: QrType, content: string)
    requires t != Url
    ensures Parse(t, Format(t, content)) == Some(content)
  {
    FormatShape(t, content);
    var p := Format(t, content);
    assert p == Head(t) + content + Tail(t);
    assert p[|p| - |Tail(t)|..] == Tail(t);
    assert Head(t) <= p;
    assert p[|Head(t)|..|p| - |Tail(t)|] == content;
  }

  /** So for every type but url, different contents give different payloads. */
  lemma {:induction false} FormatInjective(t: QrType, a: string, b: string)
    requires t != Url
    requires Format(t, a) == Format(t, b)
    ensures a == b
  {
    ParseFormat(t, a);
    ParseFormat(t, b);
  }

  /** A url payload always starts with "http", and formatting it again changes nothing;
      parsing it gives content that formats to the same payload. */
  lemma {:induction false} UrlPayloadStable(content: string)
    ensures StartsWithHttp(Format(Url, content))
    ensures Format(Url, Format(Url, content)) == Format(Url, content)
    ensures Parse(Url, Format(Url, content)).Some?
    ensures Format(Url, Parse(Url, Format(Url, content)).value) == Format(Url, content)
  {
    var p := Format(Url, content);
    if !StartsWithHttp(content) {
      assert p == HttpsScheme + content;
      assert p[..4] == "http";
    }
  }

  /** The url check looks for the letters "http", not for a scheme: "httpbin.org" is passed
      through without one, while "example.com" and "https://example.com" give one payload. */
  lemma UrlPrefixCheck()
    ensures Format(Url, "httpbin.org") == "httpbin.org"
    ensures Format(Url, "example.com") == "https://example.com"
    ensures Format(Url, "https://example.com") == "https://example.com"
  {
    assert "http" <= "httpbin.org";
    assert !("http" <= "example.com") by {
      assert "example.com"[0] == 'e';
    }
    assert "http" <= "https://example.com";
  }
}
