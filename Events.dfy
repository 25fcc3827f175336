/**
 * Typed server events (ServerCommand and its subclasses) and the Jackson
 * mapping from a parsed JSON object to one of them: the "command" property
 * chooses the subtype through a fixed name table, unknown properties are
 * ignored and absent ones take Java's defaults.
 */
module Events {
  import opened Wrappers
  import opened Bytes
  import opened Json

  /** One variant per ServerCommand subclass; `command` is the visible discriminant. */
  datatype ServerCommand =
    | LogonResult(command: string, sequence: Int32, success: bool, error: Option<string>)
    | OnChannelStatus(command: string, sequence: Int32, status: Option<string>)
    | OnStreamStart(command: string, sequence: Int32, streamId: Int32, from: Option<string>)
    | OnStreamStop(command: string, sequence: Int32, streamId: Int32, from: Option<string>)
    | OnTextMessage(command: string, sequence: Int32, from: Option<string>, message: Option<string>)
    | OnError(command: string, sequence: Int32, error: Option<string>)
    | OnImage(command: string, sequence: Int32, from: Option<string>, thumbnail: Option<string>, imageId: Int32)

  datatype EventKind =
    LogonResultKind | ChannelStatusKind | StreamStartKind | StreamStopKind | TextMessageKind | ErrorKind | ImageKind

  function KindOf(e: ServerCommand): EventKind {
    match e
    case LogonResult(_, _, _, _) => LogonResultKind
    case OnChannelStatus(_, _, _) => ChannelStatusKind
    case OnStreamStart(_, _, _, _) => StreamStartKind
    case OnStreamStop(_, _, _, _) => StreamStopKind
    case OnTextMessage(_, _, _, _) => TextMessageKind
    case OnError(_, _, _) => ErrorKind
    case OnImage(_, _, _, _, _) => ImageKind
  }

  /** The @JsonSubTypes table: the registered name of each subtype. OnError and OnImage are not registered. */
  function SubtypeName(k: EventKind): Option<string> {
    match k
    case LogonResultKind => Some("logon")
    case ChannelStatusKind => Some("on_channel_status")
    case StreamStartKind => Some("on_stream_start")
    case StreamStopKind => Some("on_stream_stop")
    case TextMessageKind => Some("on_text_message")
    case ErrorKind => None
    case ImageKind => None
  }

  /** The lookup Jackson performs on the "command" value. */
  function SubtypeOf(name: string): Option<EventKind> {
    if name == "logon" then Some(LogonResultKind)
    else if name == "on_channel_status" then Some(ChannelStatusKind)
    else if name == "on_stream_start" then Some(StreamStartKind)
    else if name == "on_stream_stop" then Some(StreamStopKind)
    else if name == "on_text_message" then Some(TextMessageKind)
    else None
  }

  /** The lookup and the table agree in both directions, so the table is one-to-one. */
  lemma SubtypeTableIsOneToOne(name: string, k: EventKind)
    ensures SubtypeOf(name) == Some(k) <==> SubtypeName(k) == Some(name)
  {
  }

  /** Neither "on_error" nor "on_image" resolves to a subtype. */
  lemma UnregisteredEventNames()
    ensures SubtypeOf("on_error").None? && SubtypeOf("on_image").None?
    ensures SubtypeName(ErrorKind).None? && SubtypeName(ImageKind).None?
  {
  }

  // ---------------------------------------------------------------------
  // Jackson's coercion of a JSON string to a primitive: the text is
  // trimmed with String.trim(), and empty text or the word "null" stands
  // for the primitive's default.

  /** String.trim() before the first kept character: every code point up to the space goes. */
  function TrimStart(s: string): (r: string)
    ensures |r| <= |s| && r == s[|s| - |r|..]
    ensures |r| == 0 || r[0] > ' '
  {
    if |s| > 0 && s[0] <= ' ' then TrimStart(s[1..]) else s
  }

  /** String.trim() after the last kept character. */
  function TrimEnd(s: string): (r: string)
    ensures |r| <= |s| && r == s[..|r|]
    ensures |r| == 0 || r[|r| - 1] > ' '
  {
    if |s| > 0 && s[|s| - 1] <= ' ' then TrimEnd(s[..|s| - 1]) else s
  }

  /** String.trim(): the text between the leading and trailing control characters and spaces. */
  function Trim(s: string): (r: string)
    ensures |r| == 0 || (r[0] > ' ' && r[|r| - 1] > ' ')
    ensures var k := |s| - |TrimStart(s)|; k + |r| <= |s| && r == s[k..k + |r|]
  {
    var rest := TrimStart(s);
    var r := TrimEnd(rest);
    SliceOfSuffix(s, |s| - |rest|, |r|);
    r
  }

  /** TrimStart removes spaces and control characters only. */
  lemma {:induction false} TrimStartRemovesBlanks(s: string)
    ensures forall i :: 0 <= i < |s| - |TrimStart(s)| ==> s[i] <= ' '
    decreases |s|
  {
    if |s| > 0 && s[0] <= ' ' {
      TrimStartRemovesBlanks(s[1..]);
      forall i | 1 <= i < |s| - |TrimStart(s)|
        ensures s[i] <= ' '
      {
        assert s[i] == s[1..][i - 1];
      }
    }
  }

  /** TrimEnd removes spaces and control characters only. */
  lemma {:induction false} TrimEndRemovesBlanks(s: string)
    ensures forall i :: |TrimEnd(s)| <= i < |s| ==> s[i] <= ' '
    decreases |s|
  {
    if |s| > 0 && s[|s| - 1] <= ' ' {
      TrimEndRemovesBlanks(s[..|s| - 1]);
      forall i | |TrimEnd(s)| <= i < |s| - 1
        ensures s[i] <= ' '
      {
        assert s[i] == s[..|s| - 1][i];
      }
    }
  }

  lemma SliceOfSuffix(s: string, k: nat, n: nat)
    requires k + n <= |s|
    ensures s[k..][..n] == s[k..k + n]
  {
  }

  lemma {:induction false} TrimStartOfPadded(pad: string, rest: string)
    requires forall i :: 0 <= i < |pad| ==> pad[i] <= ' '
    requires |rest| > 0 && rest[0] > ' '
    ensures TrimStart(pad + rest) == rest
    decreases |pad|
  {
    if |pad| == 0 {
      assert pad + rest == rest;
    } else {
      assert (pad + rest)[0] == pad[0] && (pad + rest)[1..] == pad[1..] + rest;
      TrimStartOfPadded(pad[1..], rest);
    }
  }

  lemma {:induction false} TrimEndOfPadded(kept: string, pad: string)
    requires forall i :: 0 <= i < |pad| ==> pad[i] <= ' '
    requires |kept| > 0 && kept[|kept| - 1] > ' '
    ensures TrimEnd(kept + pad) == kept
    decreases |pad|
  {
    if |pad| == 0 {
      assert kept + pad == kept;
    } else {
      var s := kept + pad;
      assert s[|s| - 1] == pad[|pad| - 1] && s[..|s| - 1] == kept + pad[..|pad| - 1];
      TrimEndOfPadded(kept, pad[..|pad| - 1]);
    }
  }

  /** Trimming text padded on both sides with spaces or control characters gives back the text. */
  lemma TrimOfPadded(left: string, word: string, right: string)
    requires forall i :: 0 <= i < |left| ==> left[i] <= ' '
    requires forall i :: 0 <= i < |right| ==> right[i] <= ' '
    requires |word| > 0 && word[0] > ' ' && word[|word| - 1] > ' '
    ensures Trim(left + word + right) == word
  {
    assert left + word + right == left + (word + right);
    TrimStartOfPadded(left, word + right);
    TrimEndOfPadded(word, right);
  }

  /**
   * Jackson's `int` from a JSON string: trimmed; empty or "null" is 0;
   * otherwise Integer.parseInt's reading (a sign, '+' included, and
   * decimal digits within the int range), and anything else fails.
   */
  function IntFromText(s: string): (r: Option<Int32>)
    ensures Trim(s) in {"", "null"} ==> r == Some(0)
    ensures r.Some? ==> Trim(s) in {"", "null"} || ParseJavaInt(Trim(s)) == r
  {
    var text := Trim(s);
    if text == "" || text == "null" then Some(0) else ParseJavaInt(text)
  }

  /** A decimal integer, padded or not and with an optional '+', reads as itself when it fits in an int. */
  lemma IntFromPaddedText(left: string, n: int, plus: bool, right: string)
    requires forall i :: 0 <= i < |left| ==> left[i] <= ' '
    requires forall i :: 0 <= i < |right| ==> right[i] <= ' '
    requires plus ==> n >= 0
    ensures IntFromText(left + (if plus then "+" + NatText(n) else IntText(n)) + right)
         == if INT_MIN <= n <= INT_MAX then Some(n) else None
  {
    var word := if plus then "+" + NatText(n) else IntText(n);
    var digits := if n < 0 then NatText(-n) else NatText(n);
    assert word[|word| - 1] == digits[|digits| - 1];
    TrimOfPadded(left, word, right);
    if plus {
      ParseJavaIntAcceptsPlus(n);
    } else {
      ParseJavaIntOfIntText(n);
    }
  }

  /**
   * Jackson's `boolean` from a JSON string: trimmed; "true", "True" or
   * "TRUE" is true; "false", "False" or "FALSE" is false; empty or "null"
   * is false; anything else fails.
   */
  function BoolFromText(s: string): (r: Option<bool>)
    ensures r == Some(true) <==> Trim(s) in {"true", "True", "TRUE"}
    ensures r == Some(false) <==> Trim(s) in {"false", "False", "FALSE", "", "null"}
  {
    var text := Trim(s);
    if text == "true" || text == "True" || text == "TRUE" then Some(true)
    else if text == "false" || text == "False" || text == "FALSE" || text == "" || text == "null" then Some(false)
    else None
  }

  /** The accepted spellings of a boolean read as it, with or without padding. */
  lemma BoolFromPaddedWord(left: string, word: string, right: string)
    requires forall i :: 0 <= i < |left| ==> left[i] <= ' '
    requires forall i :: 0 <= i < |right| ==> right[i] <= ' '
    requires word in {"true", "True", "TRUE", "false", "False", "FALSE"}
    ensures BoolFromText(left + word + right) == Some(word[0] in {'t', 'T'})
  {
    TrimOfPadded(left, word, right);
  }

  // ---------------------------------------------------------------------
  // Property readers with Jackson's defaults; None means the mapping fails.

  /**
   * An `int` property: absent or null is 0; a number must fit in an int; a
   * string is coerced as IntFromText says; a boolean or compound value fails.
   */
  function IntProperty(o: JsonObject, key: string): (r: Option<Int32>)
    ensures key !in o || o[key].JNull? ==> r == Some(0)
    ensures key in o && o[key].JNumber? ==>
      r == if INT_MIN <= o[key].n <= INT_MAX then Some(o[key].n) else None
    ensures key in o && o[key].JString? ==> r == IntFromText(o[key].s)
    ensures key in o && (o[key].JBool? || o[key].JCompound?) ==> r.None?
  {
    if key !in o then Some(0)
    else match o[key]
      case JNull => Some(0)
      case JNumber(n) => if INT_MIN <= n <= INT_MAX then Some(n) else None
      case JString(s) => IntFromText(s)
      case _ => None
  }

  /** A `String` property: absent or null is null, scalars are taken as their text. */
  function StringProperty(o: JsonObject, key: string): (r: Option<Option<string>>)
    ensures key !in o || o[key].JNull? ==> r == Some(None)
    ensures key in o && o[key].JString? ==> r == Some(Some(o[key].s))
    ensures key in o && o[key].JNumber? ==> r == Some(Some(IntText(o[key].n)))
    ensures key in o && o[key].JBool? ==> r == Some(Some(BoolText(o[key].b)))
    ensures key in o && o[key].JCompound? ==> r.None?
  {
    if key !in o then Some(None)
    else match o[key]
      case JNull => Some(None)
      case JString(s) => Some(Some(s))
      case JNumber(n) => Some(Some(IntText(n)))
      case JBool(b) => Some(Some(BoolText(b)))
      case JCompound(_) => None
  }

  /**
   * A `boolean` property: absent or null is false; a number is true unless
   * it is 0; a string is coerced as BoolFromText says; a compound value fails.
   */
  function BoolProperty(o: JsonObject, key: string): (r: Option<bool>)
    ensures key !in o || o[key].JNull? ==> r == Some(false)
    ensures key in o && o[key].JBool? ==> r == Some(o[key].b)
    ensures key in o && o[key].JNumber? ==> r == Some(o[key].n != 0)
    ensures key in o && o[key].JString? ==> r == BoolFromText(o[key].s)
    ensures key in o && o[key].JCompound? ==> r.None?
  {
    if key !in o then Some(false)
    else match o[key]
      case JNull => Some(false)
      case JBool(b) => Some(b)
      case JNumber(n) => Some(n != 0)
      case JString(s) => BoolFromText(s)
      case JCompound(_) => None
  }

  /** The properties each subtype declares, besides "command" and "seq". */
  function DeclaredProperties(k: EventKind): set<string> {
    match k
    case LogonResultKind => {"success", "error"}
    case ChannelStatusKind => {"status", "users"}
    case StreamStartKind => {"stream_id", "from"}
    case StreamStopKind => {"stream_id", "from"}
    case TextMessageKind => {"from", "message"}
    case ErrorKind => {"error"}
    case ImageKind => {"from", "thumbnail", "image_id"}
  }

  /** Jackson's polymorphic mapping of a parsed message that has a "command" property. */
  function DecodeEvent(o: JsonObject): Option<ServerCommand> {
    if "command" !in o || !o["command"].JString? then None
    else
      var name := o["command"].s;
      match SubtypeOf(name)
      case None => None
      case Some(k) =>
        match IntProperty(o, "seq")
        case None => None
        case Some(sequence) => DecodeFields(o, name, sequence, k)
  }

  /** The fields of subtype `k`, under the given discriminant and seq; None when a declared property cannot be read. */
  function DecodeFields(o: JsonObject, name: string, sequence: Int32, k: EventKind): (r: Option<ServerCommand>)
    ensures r.Some? ==> r.value.command == name && r.value.sequence == sequence && KindOf(r.value) == k
  {
    match k
    case LogonResultKind =>
      (match (BoolProperty(o, "success"), StringProperty(o, "error"))
       case (Some(ok), Some(err)) => Some(LogonResult(name, sequence, ok, err))
       case _ => None)
    case ChannelStatusKind =>
      (match StringProperty(o, "status")
       case Some(status) => Some(OnChannelStatus(name, sequence, status))
       case None => None)
    case StreamStartKind =>
      (match (IntProperty(o, "stream_id"), StringProperty(o, "from"))
       case (Some(id), Some(from)) => Some(OnStreamStart(name, sequence, id, from))
       case _ => None)
    case StreamStopKind =>
      (match (IntProperty(o, "stream_id"), StringProperty(o, "from"))
       case (Some(id), Some(from)) => Some(OnStreamStop(name, sequence, id, from))
       case _ => None)
    case TextMessageKind =>
      (match (StringProperty(o, "from"), StringProperty(o, "message"))
       case (Some(from), Some(message)) => Some(OnTextMessage(name, sequence, from, message))
       case _ => None)
    case ErrorKind =>
      (match StringProperty(o, "error")
       case Some(err) => Some(OnError(name, sequence, err))
       case None => None)
    case ImageKind =>
      (match (StringProperty(o, "from"), StringProperty(o, "thumbnail"), IntProperty(o, "image_id"))
       case (Some(from), Some(thumb), Some(id)) => Some(OnImage(name, sequence, from, thumb, id))
       case _ => None)
  }

  /**
   * A decoded event keeps its discriminant: `command` is the message's
   * "command" string, and the variant is the one the table names for it.
   * OnError and OnImage never come out of the mapping.
   */
  lemma DecodedEventKeepsDiscriminant(o: JsonObject)
    requires DecodeEvent(o).Some?
    ensures var e := DecodeEvent(o).value;
      && o["command"] == JString(e.command)
      && SubtypeOf(e.command) == Some(KindOf(e))
      && SubtypeName(KindOf(e)) == Some(e.command)
      && !e.OnError? && !e.OnImage?
  {
  }

  /** A message whose "command" names no registered subtype is not mapped. */
  lemma UnknownCommandIsRejected(o: JsonObject)
    requires "command" in o && o["command"].JString? && SubtypeOf(o["command"].s).None?
    ensures DecodeEvent(o).None?
  {
  }

  /** "seq" is an int that is 0 when the message does not carry it. */
  lemma MissingSeqIsZero(o: JsonObject)
    requires "seq" !in o && DecodeEvent(o).Some?
    ensures DecodeEvent(o).value.sequence == 0
  {
  }

  /** Two objects that hold the same values under each of the given keys. */
  predicate AgreeOn(o1: JsonObject, o2: JsonObject, keys: set<string>) {
    forall p :: p in keys ==> (p in o1 <==> p in o2) && (p in o1 ==> o1[p] == o2[p])
  }

  /** A subtype's fields are read from its declared properties only. */
  lemma DecodeFieldsAgree(o1: JsonObject, o2: JsonObject, name: string, sequence: Int32, k: EventKind)
    requires AgreeOn(o1, o2, DeclaredProperties(k))
    ensures DecodeFields(o1, name, sequence, k) == DecodeFields(o2, name, sequence, k)
  {
    forall p | p in DeclaredProperties(k)
      ensures IntProperty(o1, p) == IntProperty(o2, p)
      ensures StringProperty(o1, p) == StringProperty(o2, p)
      ensures BoolProperty(o1, p) == BoolProperty(o2, p)
    {
    }
  }

  /** Properties the subtype does not declare are ignored, whatever their value. */
  lemma UnknownPropertiesIgnored(o: JsonObject, key: string, v: JsonValue)
    requires "command" in o && o["command"].JString?
    requires SubtypeOf(o["command"].s).Some?
    requires key != "command" && key != "seq"
    requires key !in DeclaredProperties(SubtypeOf(o["command"].s).value)
    ensures DecodeEvent(o[key := v]) == DecodeEvent(o)
  {
    var o' := o[key := v];
    assert IntProperty(o', "seq") == IntProperty(o, "seq");
    var k := SubtypeOf(o["command"].s).value;
    assert AgreeOn(o', o, DeclaredProperties(k));
    if IntProperty(o, "seq").Some? {
      DecodeFieldsAgree(o', o, o["command"].s, IntProperty(o, "seq").value, k);
    }
  }
}
