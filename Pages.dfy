/** The status messages of the web interface (include/PageManager.h) and the
    part of the page manager (src/PageManager.cpp) that numbers and formats
    the response to a mutating request. The HTML pages themselves are not
    part of this model. */
module Pages {
  import opened Config

  /** PopMessage::MessageType */
  datatype MessageType = MsgInfo | MsgWarning | MsgError

  /** The three fields of a response: the service number, the colour of the
      severity and the text shown. */
  datatype Response = Response(svn: u32, color: string, msg: string)

  /** Longest message text a response carries. */
  const MAX_RESPONSE_TEXT: nat := 384

  /** The label put in front of a message of each severity: none for
      information, otherwise a word followed by ": ". */
  function Label(t: MessageType): (l: string)
    ensures l == "" <==> t == MsgInfo
    ensures t != MsgInfo ==> |l| > 2 && l[|l| - 2..] == ": "
  {
    match t
    case MsgInfo => ""
    case MsgWarning => "WARNING: "
    case MsgError => "ERROR: "
  }

  /** The colour shown for each severity, as an HTML "#rrggbb" value. */
  function Color(t: MessageType): (c: string)
    ensures |c| == 7 && c[0] == '#'
  {
    match t
    case MsgInfo => "#009900"
    case MsgWarning => "#e6b800"
    case MsgError => "#AA0000"
  }

  /** The colour tells the severity: no two severities share one. */
  lemma ColorIdentifiesSeverity(t: MessageType, u: MessageType)
    ensures Color(t) == Color(u) <==> t == u
  {
  }

  /** `substring(0, n)`: the first `n` characters, or all of them. */
  function Prefix(s: string, n: nat): (r: string)
    ensures |r| <= n && r <= s
    ensures |s| <= n ==> r == s
  {
    if |s| <= n then s else s[..n]
  }

  /** The response `send_response` builds for a message and a service number. */
  function Render(str: string, t: MessageType, svn: u32): (r: Response)
    ensures r.svn == svn && r.color == Color(t)
    ensures |Label(t)| <= |r.msg| <= |Label(t)| + MAX_RESPONSE_TEXT
    ensures r.msg[..|Label(t)|] == Label(t) && r.msg[|Label(t)|..] <= str
    ensures |str| <= MAX_RESPONSE_TEXT ==> r.msg == Label(t) + str
    ensures |str| >= MAX_RESPONSE_TEXT ==> |r.msg| == |Label(t)| + MAX_RESPONSE_TEXT
  {
    var text := Prefix(str, MAX_RESPONSE_TEXT);
    Response(svn, Color(t), Label(t) + text)
  }

  /** The next value of the uint32_t service counter. */
  function NextCount(c: u32): (n: u32)
    ensures n as int == c as int + 1 || (c as int == U32_MODULUS - 1 && n == 0)
  {
    ToU32(c as int + 1)
  }

  /** A status message: its text and its severity. */
  class PopMessage {
    var str: string
    var kind: MessageType

    /** The empty information message. */
    constructor ()
      ensures str == "" && kind == MsgInfo
    {
      str := "";
      kind := MsgInfo;
    }

    /** The two-argument constructor keeps the text but sets the severity to
        information whatever `t` is. */
    constructor WithText(t: MessageType, s: string)
      ensures str == s && kind == MsgInfo
    {
      str := s;
      kind := MsgInfo;
    }

    /** `set`: both fields are overwritten, whatever they held before. */
    method Set(t: MessageType, s: string)
      modifies this
      ensures str == s && kind == t
    {
      str := s;
      kind := t;
    }
  }

  /** The page manager's service counter. */
  class PageManager {
    var serviceCount: u32

    constructor ()
      ensures serviceCount == 0
    {
      serviceCount := 0;
    }

    /** The counter step at the start of every page. */
    method StartChunkedPage()
      modifies this
      ensures serviceCount == NextCount(old(serviceCount))
    {
      serviceCount := NextCount(serviceCount);
    }

    /** `send_response`: count the response, then report the new count, the
        colour of the severity and the labelled, truncated text. */
    method SendResponse(m: PopMessage) returns (r: Response)
      modifies this
      ensures serviceCount == NextCount(old(serviceCount))
      ensures r == Render(m.str, m.kind, serviceCount)
    {
      serviceCount := NextCount(serviceCount);
      var text := Prefix(m.str, MAX_RESPONSE_TEXT);
      r := Response(serviceCount, Color(m.kind), Label(m.kind) + text);
    }
  }
}
