/**
 * backend/src/publishing/formatters/text-formatting.ts, the X and Threads formatters,
 * `postText` of the two adapters that append the link, and the length part of
 * PostService.issues. A Dafny string is a sequence of code points, as [...text] is.
 */
module TextFormatting {
  import opened Wrappers
  import opened PostEntity

  const ELLIPSIS: string := "\U{2026}"
  const X_LIMIT: nat := 280
  const THREADS_LIMIT: nat := 500

  /** White space and line terminators as String.prototype.trim removes them. */
  predicate IsSpace(c: char) {
    var n := c as int;
    9 <= n <= 13 || n == 0x20 || n == 0xA0 || n == 0x1680 || 0x2000 <= n <= 0x200A
    || n == 0x2028 || n == 0x2029 || n == 0x202F || n == 0x205F || n == 0x3000 || n == 0xFEFF
  }

  function TrimStart(s: string): (r: string)
    ensures |r| <= |s| && (r == "" || !IsSpace(r[0]))
  {
    if s != "" && IsSpace(s[0]) then TrimStart(s[1..]) else s
  }

  function TrimEnd(s: string): (r: string)
    ensures |r| <= |s| && (r == "" || !IsSpace(r[|r| - 1]))
  {
    if s != "" && IsSpace(s[|s| - 1]) then TrimEnd(s[..|s| - 1]) else s
  }

  function Trim(s: string): (r: string)
    ensures r == "" || (!IsSpace(r[0]) && !IsSpace(r[|r| - 1]))
  {
    EndIsCut(TrimStart(s));
    TrimEnd(TrimStart(s))
  }

  lemma {:induction false} EndIsCut(s: string)
    ensures TrimEnd(s) == s[..|TrimEnd(s)|] && (s != "" && !IsSpace(s[0]) ==> TrimEnd(s) != "")
    decreases |s|
  {
    if s != "" && IsSpace(s[|s| - 1]) {
      var init := s[..|s| - 1];
      EndIsCut(init);
      assert init[..|TrimEnd(init)|] == s[..|TrimEnd(init)|];
    }
  }

  lemma {:induction false} StartIsCut(s: string)
    ensures TrimStart(s) == s[|s| - |TrimStart(s)|..]
    decreases |s|
  {
    if s != "" && IsSpace(s[0]) {
      StartIsCut(s[1..]);
      assert s[1..][|s| - 1 - |TrimStart(s)|..] == s[|s| - |TrimStart(s)|..];
    }
  }

  predicate IsBlank(s: string) {
    forall c | c in s :: IsSpace(c)
  }

  lemma {:induction false} StartIsBlank(s: string)
    ensures IsBlank(s[..|s| - |TrimStart(s)|])
    decreases |s|
  {
    if s != "" && IsSpace(s[0]) {
      StartIsBlank(s[1..]);
      assert s[..|s| - |TrimStart(s)|] == [s[0]] + s[1..][..|s[1..]| - |TrimStart(s[1..])|];
    }
  }

  lemma {:induction false} EndIsBlank(s: string)
    ensures IsBlank(s[|TrimEnd(s)|..])
    decreases |s|
  {
    if s != "" && IsSpace(s[|s| - 1]) {
      var init := s[..|s| - 1];
      EndIsBlank(init);
      assert s[|TrimEnd(s)|..] == init[|TrimEnd(init)|..] + [s[|s| - 1]];
    }
  }

  /** Only white space is cut off, at both ends. */
  lemma TrimCutsBlanks(s: string) returns (before: string, behind: string)
    ensures s == before + Trim(s) + behind && IsBlank(before) && IsBlank(behind)
  {
    StartIsBlank(s);
    EndIsBlank(TrimStart(s));
    StartIsCut(s);
    EndIsCut(TrimStart(s));
    var rest, kept := TrimStart(s), TrimEnd(TrimStart(s));
    before, behind := s[..|s| - |rest|], rest[|kept|..];
    CutTogether(s, |s| - |rest|);
    CutTogether(rest, |kept|);
    Associates(before, kept, behind);
  }

  lemma CutTogether(s: string, n: nat)
    requires n <= |s|
    ensures s == s[..n] + s[n..]
  {
  }

  lemma Associates(a: string, b: string, c: string)
    ensures a + (b + c) == a + b + c
  {
  }

  predicate Trimmed(s: string) {
    s == "" || (!IsSpace(s[0]) && !IsSpace(s[|s| - 1]))
  }

  lemma TrimIsIdentityOnTrimmed(s: string)
    ensures Trim(s) == s <==> Trimmed(s)
  {
    if s != "" && Trimmed(s) { assert TrimStart(s) == s && TrimEnd(s) == s; }
  }

  function Compact(text: string, maximumCharacters: nat): string {
    var characters := Trim(text);
    if |characters| <= maximumCharacters then characters
    else TrimEnd(characters[..Max(1, maximumCharacters - 1)]) + ELLIPSIS
  }

  function Max(a: int, b: int): int {
    if a < b then b else a
  }

  /** What is kept of a text that is too long. */
  function Kept(characters: string, limit: nat): (kept: string)
    requires |characters| > limit && Trimmed(characters)
    ensures kept <= characters && 1 <= |kept| <= Max(1, limit - 1) && Trimmed(kept)
  {
    EndIsCut(characters[..Max(1, limit - 1)]);
    TrimEnd(characters[..Max(1, limit - 1)])
  }

  lemma CompactCuts(text: string, limit: nat)
    requires |Trim(text)| > limit
    ensures Compact(text, limit) == Kept(Trim(text), limit) + ELLIPSIS
    ensures |Compact(text, limit)| == |Kept(Trim(text), limit)| + 1 && Trimmed(Compact(text, limit))
  {
    var kept := Kept(Trim(text), limit);
    assert !IsSpace(ELLIPSIS[0]) && |ELLIPSIS| == 1;
    assert (kept + ELLIPSIS)[0] == kept[0] && (kept + ELLIPSIS)[|kept|] == ELLIPSIS[0];
  }

  /** A one-character limit is exceeded exactly when the trimmed text is longer than it. */
  lemma CompactRespectsLimit(text: string, limit: nat)
    ensures |Compact(text, limit)| <= limit <==> limit >= 2 || |Trim(text)| <= limit
    ensures Trimmed(Compact(text, limit))
    ensures Compact(text, limit) == "" <==> Trim(text) == ""
    ensures |Trim(text)| <= limit ==> Compact(text, limit) == Trim(text)
    ensures |Trim(text)| > limit ==>
              exists kept: string ::
                && kept <= Trim(text) && 1 <= |kept| <= Max(1, limit - 1)
                && Trimmed(kept) && Compact(text, limit) == kept + ELLIPSIS
  {
    if |Trim(text)| > limit {
      CompactCuts(text, limit);
      var kept := Kept(Trim(text), limit);
      assert kept <= Trim(text) && Trimmed(kept) && Compact(text, limit) == kept + ELLIPSIS;
    }
  }

  lemma CompactKeepsShort(text: string, limit: nat)
    requires Trimmed(text) && |text| <= limit
    ensures Compact(text, limit) == text
  {
    TrimIsIdentityOnTrimmed(text);
  }

  lemma CompactIsIdempotent(text: string, limit: nat)
    requires limit >= 2
    ensures Compact(Compact(text, limit), limit) == Compact(text, limit)
  {
    CompactRespectsLimit(text, limit);
    CompactKeepsShort(Compact(text, limit), limit);
  }

  function TitleAndMessage(title: string, message: string): string {
    JoinNonEmpty(Trim(title), "\n\n", Trim(message))
  }

  /** [first, second].filter(Boolean).join(separator) */
  function JoinNonEmpty(first: string, separator: string, second: string): (joined: string)
    ensures |joined| == |first| + |second| + (if first != "" && second != "" then |separator| else 0)
    ensures first <= joined && (joined == "" <==> first == second == "")
  {
    if first == "" then second
    else if second == "" then first
    else first + separator + second
  }

  /** Title and message a formatter sees: a per-platform body replaces both. */
  function Original(content: PostContent, platform: SocialPlatform): (string, string) {
    var overrides := content.platformBodies.GetOr(map[]);
    if platform in overrides then ("", overrides[platform]) else (content.title, content.body)
  }

  function LinkText(content: PostContent): string {
    content.url.GetOr("")
  }

  /** Code points the link and its line break take; an empty link is no link. */
  function LinkCost(content: PostContent): nat {
    if LinkText(content) == "" then 0 else |LinkText(content)| + 1
  }

  function XBudget(content: PostContent): nat {
    Max(1, X_LIMIT - LinkCost(content))
  }

  /** FormatterService.format(...).body; the Instagram caption is not part of this model. */
  function FormattedBody(content: PostContent, platform: SocialPlatform): string
    requires platform != Instagram
  {
    PlatformBody(Original(content, platform), XBudget(content), platform)
  }

  function PlatformBody(original: (string, string), xBudget: nat, platform: SocialPlatform): string
    requires platform != Instagram
  {
    match platform
    case LinkedIn => TitleAndMessage(original.0, original.1)
    case Facebook => TitleAndMessage(original.0, original.1)
    case Threads => Compact(original.1, THREADS_LIMIT)
    case X => Compact(TitleAndMessage(original.0, original.1), xBudget)
  }

  /** `postText` of the Threads and X adapters; None is the TypeError for nothing to send. */
  function PostText(body: string, content: PostContent, platform: SocialPlatform): Option<string> {
    var text := JoinNonEmpty(Trim(body), "\n", LinkText(content));
    if text == "" && (platform == Threads || content.media == []) then None else Some(text)
  }

  function SentText(content: PostContent, platform: SocialPlatform): Option<string>
    requires platform in {Threads, X}
  {
    PostText(FormattedBody(content, platform), content, platform)
  }

  function PlatformLimit(platform: SocialPlatform): nat {
    match platform
    case LinkedIn => 3000
    case Instagram => 2200
    case Facebook => 10000
    case Threads => THREADS_LIMIT
    case X => X_LIMIT
  }

  /** The preview counts a character outside ASCII twice on X. */
  function WeightedLength(body: string, platform: SocialPlatform): (total: nat)
    ensures |body| <= total
    ensures platform != X ==> total == |body|
  {
    if body == "" then 0
    else (if platform == X && body[0] as int > 127 then 2 else 1) + WeightedLength(body[1..], platform)
  }

  function GateLinkLength(content: PostContent, platform: SocialPlatform): nat {
    if LinkText(content) == "" || platform !in {Threads, X} then 0
    else if platform == X then 24
    else |LinkText(content)| + 1
  }

  predicate FitsPlatform(body: string, linkLength: nat, platform: SocialPlatform) {
    WeightedLength(body, platform) + linkLength <= PlatformLimit(platform)
  }

  /** No "text too long" issue is raised for this platform. */
  predicate PassesLengthGate(content: PostContent, platform: SocialPlatform)
    requires platform != Instagram
  {
    FitsPlatform(FormattedBody(content, platform), GateLinkLength(content, platform), platform)
  }

  lemma SameOriginalSameGate(a: PostContent, b: PostContent, platform: SocialPlatform)
    requires platform != Instagram && a.url == b.url && Original(a, platform) == Original(b, platform)
    ensures PassesLengthGate(a, platform) <==> PassesLengthGate(b, platform)
  {
    SameLink(a, b, platform);
    SameFormattedBody(a, b, platform);
  }

  /** A missing platformBodies and an empty one are judged alike. */
  lemma GateIgnoresMissingBodies(content: PostContent, platform: SocialPlatform)
    requires platform != Instagram && content.platformBodies.None?
    ensures PassesLengthGate(content.(platformBodies := Some(map[])), platform) <==> PassesLengthGate(content, platform)
  {
    SameOriginalSameGate(content.(platformBodies := Some(map[])), content, platform);
  }

  lemma SameLink(a: PostContent, b: PostContent, platform: SocialPlatform)
    requires a.url == b.url
    ensures XBudget(a) == XBudget(b) && GateLinkLength(a, platform) == GateLinkLength(b, platform)
  {
  }

  lemma SameFormattedBody(a: PostContent, b: PostContent, platform: SocialPlatform)
    requires platform != Instagram && XBudget(a) == XBudget(b) && Original(a, platform) == Original(b, platform)
    ensures FormattedBody(a, platform) == FormattedBody(b, platform)
  {
  }

  lemma CompactIsTrimmed(text: string, limit: nat)
    ensures Trim(Compact(text, limit)) == Compact(text, limit)
  {
    CompactRespectsLimit(text, limit);
    TrimIsIdentityOnTrimmed(Compact(text, limit));
  }

  lemma BodyIsSentUnchanged(content: PostContent, platform: SocialPlatform)
    requires platform in {Threads, X}
    ensures Trim(FormattedBody(content, platform)) == FormattedBody(content, platform)
  {
    var (title, message) := Original(content, platform);
    if platform == Threads {
      CompactIsTrimmed(message, THREADS_LIMIT);
    } else {
      CompactIsTrimmed(TitleAndMessage(title, message), XBudget(content));
    }
  }

  lemma SentLength(content: PostContent, platform: SocialPlatform)
    requires platform in {Threads, X} && SentText(content, platform).Some?
    ensures |SentText(content, platform).value|
              == |FormattedBody(content, platform)| + LinkCost(content)
                 - (if FormattedBody(content, platform) == "" && LinkCost(content) > 0 then 1 else 0)
  {
    BodyIsSentUnchanged(content, platform);
    PostTextLength(FormattedBody(content, platform), content, platform);
  }

  lemma PostTextLength(body: string, content: PostContent, platform: SocialPlatform)
    requires Trim(body) == body && PostText(body, content, platform).Some?
    ensures |PostText(body, content, platform).value| == |body|
             + LinkCost(content) - (if body == "" && LinkCost(content) > 0 then 1 else 0)
  {
  }

  lemma CompactLength(text: string, limit: nat)
    ensures |Trim(text)| <= limit ==> |Compact(text, limit)| == |Trim(text)|
    ensures |Trim(text)| > limit ==> 2 <= |Compact(text, limit)| <= Max(2, limit)
  {
    CompactRespectsLimit(text, limit);
  }

  lemma BudgetArithmetic(cost: nat, wanted: nat, length: nat, sent: int)
    requires var budget := Max(1, X_LIMIT - cost);
             && (wanted <= budget ==> length == wanted)
             && (wanted > budget ==> 2 <= length <= Max(2, budget))
    requires cost != 1
    requires sent == length + cost - (if length == 0 && cost > 0 then 1 else 0)
    ensures sent <= X_LIMIT <==>
              cost <= 278 || (cost == 279 && wanted <= 1) || (cost <= 281 && wanted == 0)
  {
  }

  /** Length of the text the X formatter would like to send in front of the link. */
  function XWanted(content: PostContent): nat {
    |Trim(TitleAndMessage(Original(content, X).0, Original(content, X).1))|
  }

  lemma XBodyLength(content: PostContent)
    ensures XWanted(content) <= XBudget(content) ==> |FormattedBody(content, X)| == XWanted(content)
    ensures XWanted(content) > XBudget(content) ==> 2 <= |FormattedBody(content, X)| <= Max(2, XBudget(content))
  {
    var wanted := TitleAndMessage(Original(content, X).0, Original(content, X).1);
    XBodyIsCompact(content, wanted);
    CompactLength(wanted, XBudget(content));
  }

  lemma XBodyIsCompact(content: PostContent, wanted: string)
    requires wanted == TitleAndMessage(Original(content, X).0, Original(content, X).1)
    ensures FormattedBody(content, X) == Compact(wanted, XBudget(content)) && XWanted(content) == |Trim(wanted)|
  {
  }

  // -------------------------------------------------------------- the texts themselves

  /** A body written for the platform stands for title and body. */
  predicate IsOriginal(content: PostContent, platform: SocialPlatform, title: string, message: string) {
    if content.platformBodies.Some? && platform in content.platformBodies.value
    then title == "" && message == content.platformBodies.value[platform]
    else title == content.title && message == content.body
  }

  /** Title, an empty line and the message, without what is blank. */
  function Whole(title: string, message: string): string {
    if Trim(title) == "" then Trim(message)
    else if Trim(message) == "" then Trim(title)
    else Trim(title) + "\n\n" + Trim(message)
  }

  lemma WholeIsTrimmed(title: string, message: string)
    ensures Trim(Whole(title, message)) == Whole(title, message)
  {
    TrimIsIdentityOnTrimmed(Whole(title, message));
  }

  /**
   * What a formatter makes of a post: title and message whole for LinkedIn and Facebook, the
   * message for Threads, and whole for X too while it fits beside the link; what does not fit
   * is a beginning of that, and an ellipsis.
   */
  lemma BodyIsWritten(content: PostContent, platform: SocialPlatform, title: string, message: string)
    requires platform != Instagram && IsOriginal(content, platform, title, message)
    ensures platform in {LinkedIn, Facebook} ==> FormattedBody(content, platform) == Whole(title, message)
    ensures platform == Threads ==> IsCut(Trim(message), 500, FormattedBody(content, platform))
    ensures platform == X ==>
              var link := content.url.GetOr("");
              IsCut(Whole(title, message), if link == "" then 280 else Max(1, 279 - |link|),
                FormattedBody(content, platform))
  {
    match platform {
      case LinkedIn => WholeBodyIsWritten(content, LinkedIn, title, message);
      case Facebook => WholeBodyIsWritten(content, Facebook, title, message);
      case Threads => CompactIsCut(message, 500);
      case X => XBodyIsWritten(content, title, message);
    }
  }

  lemma OriginalIs(content: PostContent, platform: SocialPlatform, title: string, message: string)
    requires IsOriginal(content, platform, title, message)
    ensures Original(content, platform) == (title, message)
  {
  }

  lemma JoinedIsWhole(title: string, message: string)
    ensures TitleAndMessage(title, message) == Whole(title, message)
  {
  }

  lemma WholeBodyIsWritten(content: PostContent, platform: SocialPlatform, title: string, message: string)
    requires platform in {LinkedIn, Facebook} && IsOriginal(content, platform, title, message)
    ensures FormattedBody(content, platform) == Whole(title, message)
  {
    OriginalIs(content, platform, title, message);
    JoinedIsWhole(title, message);
  }

  lemma BudgetBesideLink(content: PostContent)
    ensures var link := content.url.GetOr("");
            XBudget(content) == if link == "" then 280 else Max(1, 279 - |link|)
  {
  }

  lemma XBodyIsWritten(content: PostContent, title: string, message: string)
    requires IsOriginal(content, X, title, message)
    ensures var link := content.url.GetOr("");
            IsCut(Whole(title, message), if link == "" then 280 else Max(1, 279 - |link|), FormattedBody(content, X))
  {
    var whole := Whole(title, message);
    OriginalIs(content, X, title, message);
    JoinedIsWhole(title, message);
    XBodyIsCompact(content, whole);
    BudgetBesideLink(content);
    WholeIsTrimmed(title, message);
    WrittenIsCut(whole, XBudget(content), FormattedBody(content, X));
  }

  lemma WrittenIsCut(whole: string, limit: nat, body: string)
    requires body == Compact(whole, limit) && Trim(whole) == whole
    ensures IsCut(whole, limit, body)
  {
    CompactIsCut(whole, limit);
  }

  /** The text itself if it is short enough, or else a beginning of it and an ellipsis. */
  predicate IsCut(text: string, limit: nat, cut: string) {
    if |text| <= limit then cut == text
    else
      && cut != [] && cut[|cut| - 1] == '\U{2026}' && cut[..|cut| - 1] <= text
      && 1 <= |cut| - 1 <= Max(1, limit - 1)
  }

  lemma CompactIsCut(text: string, limit: nat)
    ensures IsCut(Trim(text), limit, Compact(text, limit))
  {
    if |Trim(text)| > limit { CompactCuts(text, limit); }
  }

  /** What an adapter sends: the body, and the link on a line of its own; nothing of neither is refused. */
  lemma TextIsSent(content: PostContent, platform: SocialPlatform)
    requires platform in {Threads, X}
    ensures var body, link := FormattedBody(content, platform), content.url.GetOr("");
            SentText(content, platform) ==
              if body != "" && link != "" then Some(body + "\n" + link)
              else if body != "" then Some(body)
              else if link != "" then Some(link)
              else if platform == X && content.media != [] then Some("")
              else None
  {
    BodyIsSentUnchanged(content, platform);
    PostTextIs(FormattedBody(content, platform), content, platform);
  }

  lemma PostTextIs(body: string, content: PostContent, platform: SocialPlatform)
    requires Trim(body) == body && platform in {Threads, X}
    ensures var link := content.url.GetOr("");
            PostText(body, content, platform) ==
              if body != "" && link != "" then Some(body + "\n" + link)
              else if body != "" then Some(body)
              else if link != "" then Some(link)
              else if platform == X && content.media != [] then Some("")
              else None
  {
  }

  // -------------------------------------------------------------- the length gate

  /** Characters outside ASCII. */
  function Wide(text: string): nat {
    if text == "" then 0 else (if text[0] as int > 127 then 1 else 0) + Wide(text[1..])
  }

  lemma {:induction false} XCountsWideTwice(body: string)
    ensures WeightedLength(body, X) == |body| + Wide(body)
  {
    if body != "" { XCountsWideTwice(body[1..]); }
  }

  /** The limit of each platform; Threads counts the link, X counts 24 for it and wide characters twice. */
  predicate IsShortEnough(body: string, url: Option<string>, platform: SocialPlatform) {
    match platform
    case LinkedIn => |body| <= 3000
    case Facebook => |body| <= 10_000
    case Threads => |body| + (if url.GetOr("") == "" then 0 else |url.value| + 1) <= 500
    case X => |body| + Wide(body) + (if url.GetOr("") == "" then 0 else 24) <= 280
    case Instagram => |body| <= 2200
  }

  lemma GateExactly(content: PostContent, platform: SocialPlatform)
    requires platform != Instagram
    ensures PassesLengthGate(content, platform) <==>
              IsShortEnough(FormattedBody(content, platform), content.url, platform)
  {
    if platform == X { XCountsWideTwice(FormattedBody(content, platform)); }
  }

  /**
   * Reserving room for the link keeps an X text within 280 code points exactly in these
   * cases; in particular for every link of at most 277 code points.
   */
  lemma XTextFits(content: PostContent)
    requires SentText(content, X).Some?
    ensures |SentText(content, X).value| <= 280 <==>
              || LinkCost(content) <= 278
              || (LinkCost(content) == 279 && XWanted(content) <= 1)
              || (LinkCost(content) <= 281 && XWanted(content) == 0)
  {
    XBodyLength(content);
    SentLength(content, X);
    var cost, wanted, length, sent :=
        LinkCost(content), XWanted(content), |FormattedBody(content, X)|, |SentText(content, X).value|;
    assert cost != 1;
    assert XBudget(content) == Max(1, X_LIMIT - cost);
    assert sent == length + cost - (if length == 0 && cost > 0 then 1 else 0);
    BudgetArithmetic(cost, wanted, length, sent);
  }

  lemma ThreadsGateMeasures(content: PostContent)
    ensures PassesLengthGate(content, Threads) <==>
              |FormattedBody(content, Threads)| + LinkCost(content) <= THREADS_LIMIT
  {
  }

  lemma BodyTextIsPosted(body: string, content: PostContent, platform: SocialPlatform)
    requires Trim(body) == body && body != ""
    ensures PostText(body, content, platform).Some?
  {
    var text := JoinNonEmpty(Trim(body), "\n", LinkText(content));
    assert text != "";
  }

  lemma BodyTextIsSent(content: PostContent)
    requires FormattedBody(content, Threads) != ""
    ensures SentText(content, Threads).Some?
  {
    BodyIsSentUnchanged(content, Threads);
    BodyTextIsPosted(FormattedBody(content, Threads), content, Threads);
  }

  /**
   * The length gate of the preview is sound for Threads, and exact as long as there is
   * body text: what passes is sent with at most 500 code points, link included.
   */
  lemma ThreadsGateIsExact(content: PostContent)
    ensures PassesLengthGate(content, Threads) && SentText(content, Threads).Some? ==>
              |SentText(content, Threads).value| <= 500
    ensures !PassesLengthGate(content, Threads) && FormattedBody(content, Threads) != "" ==>
              SentText(content, Threads).Some? && |SentText(content, Threads).value| > 500
  {
    ThreadsGateMeasures(content);
    if FormattedBody(content, Threads) != "" { BodyTextIsSent(content); }
    if SentText(content, Threads).Some? { SentLength(content, Threads); }
  }
}
