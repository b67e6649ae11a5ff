/** Redaction of credentials in diagnostics. Text is a sequence of characters; offsets into it are
    characters, and the one place where the program computes a byte offset is checked as such. */
module UrlRedaction {
  import opened Basics

  const MARK: string := "[REDACTED]"

  predicate IsSchemeChar(c: char) {
    'a' <= c <= 'z' || 'A' <= c <= 'Z' || '0' <= c <= '9' || c == '+' || c == '-' || c == '.'
  }

  /** The characters that end a URL candidate. */
  predicate EndsUrl(c: char) {
    IsWhitespace(c) || c == '`' || c == '"' || c == '\'' || c == '<' || c == '>'
  }

  predicate EndsAuthority(c: char) {
    c == '/' || c == '?' || c == '#'
  }

  /** Adding one to the byte offset of a character lands on a character boundary only for these. */
  predicate IsOneByte(c: char) {
    c < '\U{80}'
  }

  predicate SeparatorAt(t: string, i: nat) {
    i + 3 <= |t| && t[i] == ':' && t[i + 1] == '/' && t[i + 2] == '/'
  }

  /** The first separator at or after `from`, or the length. */
  function FindSeparator(t: string, from: nat): (i: nat)
    requires from <= |t|
    ensures from <= i <= |t| && (i < |t| ==> SeparatorAt(t, i) && i + 3 <= |t|)
    ensures forall k | from <= k < i :: !SeparatorAt(t, k)
    ensures i == |t| ==> !SeparatorAt(t, i)
    decreases |t| - from
  {
    if from == |t| || SeparatorAt(t, from) then from else FindSeparator(t, from + 1)
  }

  /** The first character at or after `from` that ends a URL, or the length. */
  function UrlEnd(t: string, from: nat): (i: nat)
    requires from <= |t|
    ensures from <= i <= |t| && (i < |t| ==> EndsUrl(t[i]))
    ensures forall k | from <= k < i :: !EndsUrl(t[k])
    decreases |t| - from
  {
    if from == |t| || EndsUrl(t[from]) then from else UrlEnd(t, from + 1)
  }

  function AuthorityEnd(t: string, from: nat): (i: nat)
    requires from <= |t|
    ensures from <= i <= |t| && (i < |t| ==> EndsAuthority(t[i]))
    ensures forall k | from <= k < i :: !EndsAuthority(t[k])
    decreases |t| - from
  {
    if from == |t| || EndsAuthority(t[from]) then from else AuthorityEnd(t, from + 1)
  }

  /** Just after the last character before `upTo` that cannot belong to a scheme, or the beginning. */
  function SchemeStart(t: string, upTo: nat): (i: nat)
    requires upTo <= |t|
    ensures i <= upTo && (i > 0 ==> !IsSchemeChar(t[i - 1]))
    ensures forall k | i <= k < upTo :: IsSchemeChar(t[k])
  {
    if upTo == 0 || !IsSchemeChar(t[upTo - 1]) then upTo else SchemeStart(t, upTo - 1)
  }

  /** The last `@` in `t[from..upTo]`. */
  function LastAt(t: string, from: nat, upTo: nat): (i: Option<nat>)
    requires from <= upTo <= |t|
    ensures i.Some? ==> from <= i.value < upTo && t[i.value] == '@' && forall k | i.value < k < upTo :: t[k] != '@'
    ensures i.None? ==> forall k | from <= k < upTo :: t[k] != '@'
    decreases upTo
  {
    if upTo == from then None else if t[upTo - 1] == '@' then Some(upTo - 1) else LastAt(t, from, upTo - 1)
  }

  /** The last `@` of the authority that begins at `cut`. */
  function AtSign(url: string, cut: nat): (i: Option<nat>)
    requires cut <= |url|
    ensures i.Some? ==> cut <= i.value < |url|
  {
    LastAt(url, cut, AuthorityEnd(url, cut))
  }

  /** Replaces the user information of the URL's authority, if it has one. */
  function RedactUrl(url: string): string {
    var separator := FindSeparator(url, 0);
    if separator == |url| then url
    else
      match AtSign(url, separator + 3)
      case None => url
      case Some(at) => Splice(url, separator + 3, MARK, at)
  }

  function Splice(t: string, cut: nat, mark: string, resume: nat): string
    requires cut <= resume <= |t|
  {
    t[..cut] + mark + t[resume..]
  }

  /** Where the credentials of a URL are: between the end of its first separator and the last `@` at `at`
      of the authority, which runs up to the first `/`, `?` or `#`, or the end. */
  ghost predicate HasUserInfo(url: string, separator: nat, at: nat, end: nat) {
    && separator + 3 <= at < end <= |url|
    && SeparatorAt(url, separator) && (forall k | 0 <= k < separator :: !SeparatorAt(url, k))
    && (forall k | separator + 3 <= k < end :: !EndsAuthority(url[k]))
    && (end < |url| ==> EndsAuthority(url[end]))
    && url[at] == '@' && (forall k | at < k < end :: url[k] != '@')
  }

  /** Of a URL with credentials only these are replaced; any other text comes back as it was. */
  lemma OnlyUserInfoIsReplaced(url: string)
    ensures forall separator: nat, at: nat, end: nat | HasUserInfo(url, separator, at, end) ::
      RedactUrl(url) == Splice(url, separator + 3, MARK, at)
    ensures (exists separator: nat, at: nat, end: nat :: HasUserInfo(url, separator, at, end)) || RedactUrl(url) == url
  {
    forall separator: nat, at: nat, end: nat | HasUserInfo(url, separator, at, end)
      ensures RedactUrl(url) == Splice(url, separator + 3, MARK, at)
    {
      assert FindSeparator(url, 0) == separator;
      assert AuthorityEnd(url, separator + 3) == end;
      assert LastAt(url, separator + 3, end) == Some(at);
    }
    var separator := FindSeparator(url, 0);
    if separator < |url| && LastAt(url, separator + 3, AuthorityEnd(url, separator + 3)).Some? {
      var end := AuthorityEnd(url, separator + 3);
      assert HasUserInfo(url, separator, LastAt(url, separator + 3, end).value, end);
    }
  }

  predicate Agree(t: string, u: string, n: nat) {
    n <= |t| && n <= |u| && forall k | 0 <= k < n :: t[k] == u[k]
  }

  /** Two texts with a common beginning that holds the first separator of one find it in the same place. */
  lemma PrefixKeepsSeparator(t: string, u: string)
    requires FindSeparator(t, 0) < |t| && Agree(t, u, FindSeparator(t, 0) + 3)
    ensures FindSeparator(u, 0) == FindSeparator(t, 0)
  {
    var i := FindSeparator(t, 0);
    assert SeparatorAt(u, i);
    assert forall k | 0 <= k < i :: SeparatorAt(u, k) ==> SeparatorAt(t, k);
  }

  // ----- whole diagnostics -----

  /** The text after redaction; `None` when slicing at the computed scheme start would panic, because the
      character before it takes more than one byte. */
  function Redacted(text: string): Option<string>
    decreases |text|
  {
    var separator := FindSeparator(text, 0);
    if separator == |text| then Some(text)
    else
      var start, end := SchemeStart(text, separator), UrlEnd(text, separator + 3);
      if start > 0 && !IsOneByte(text[start - 1]) then None
      else Preceded(text[..start] + RedactUrl(text[start..end]), Redacted(text[end..]))
  }

  function Preceded(done: string, rest: Option<string>): Option<string> {
    if rest.None? then None else Some(done + rest.value)
  }

  /** The text of one candidate and of what precedes it, then the rest. */
  lemma RedactedStep(text: string, start: nat, end: nat)
    requires FindSeparator(text, 0) < |text| && start == SchemeStart(text, FindSeparator(text, 0))
    requires end == UrlEnd(text, FindSeparator(text, 0) + 3)
    ensures Redacted(text) == if start > 0 && !IsOneByte(text[start - 1]) then None
                              else Preceded(text[..start] + RedactUrl(text[start..end]), Redacted(text[end..]))
  {
    hide EndsUrl, IsSchemeChar, IsOneByte, RedactUrl, FindSeparator, SchemeStart, UrlEnd;
  }

  lemma RedactedEnd(text: string)
    requires FindSeparator(text, 0) == |text|
    ensures Redacted(text) == Some(text)
  {
  }

  method RedactUrls(text: string) returns (output: Option<string>)
    ensures output == Redacted(text)
  {
    hide EndsUrl, IsSchemeChar, IsOneByte, RedactUrl, Redacted, Preceded, FindSeparator, SchemeStart, UrlEnd;
    var done := "";
    var remaining := text;
    var separator := FindSeparator(remaining, 0);
    EmptyPreceded(Redacted(text));
    while separator < |remaining|
      invariant separator == FindSeparator(remaining, 0)
      invariant Redacted(text) == Preceded(done, Redacted(remaining))
      decreases |remaining|
    {
      var start := SchemeStart(remaining, separator);
      var end := UrlEnd(remaining, separator + 3);
      RedactedStep(remaining, start, end);
      if start > 0 && !IsOneByte(remaining[start - 1]) {
        NothingPreceded(done);
        return None;
      }
      var piece := remaining[..start] + RedactUrl(remaining[start..end]);
      PrecededTwice(done, piece, Redacted(remaining[end..]));
      done := done + piece;
      remaining := remaining[end..];
      separator := FindSeparator(remaining, 0);
    }
    RedactedEnd(remaining);
    SomethingPreceded(done, remaining);
    return Some(done + remaining);
  }

  lemma NothingPreceded(done: string)
    ensures Preceded(done, None) == None
  {
  }

  lemma SomethingPreceded(done: string, rest: string)
    ensures Preceded(done, Some(rest)) == Some(done + rest)
  {
  }

  lemma EmptyPreceded(rest: Option<string>)
    ensures Preceded("", rest) == rest
  {
    if rest.Some? {
      assert "" + rest.value == rest.value;
    }
  }

  lemma PrecededTwice(done: string, piece: string, rest: Option<string>)
    ensures Preceded(done, Preceded(piece, rest)) == Preceded(done + piece, rest)
  {
    if rest.Some? {
      assert done + (piece + rest.value) == done + piece + rest.value;
    }
  }

  // ----- only credentials are replaced -----

  /** One replacement: what begins at `skip` and ends before `at`, counted from the end of the one before. */
  datatype Edit = Edit(skip: nat, at: nat)

  /** What is replaced stands between a separator and an `@`, within one URL and one authority. */
  predicate IsCredential(text: string, edit: Edit) {
    && 3 <= edit.skip <= edit.at < |text| && SeparatorAt(text, edit.skip - 3) && text[edit.at] == '@'
    && forall k | edit.skip <= k < edit.at :: !EndsAuthority(text[k]) && !EndsUrl(text[k])
  }

  /** `out` is `text` with the mark in place of the credentials that `edits` lists, and otherwise the same. */
  predicate Edited(text: string, out: string, edits: seq<Edit>)
    decreases |edits|
  {
    if edits == [] then out == text
    else
      var skip, at, resume := edits[0].skip, edits[0].at, edits[0].skip + |MARK|;
      && IsCredential(text, edits[0])
      && resume <= |out| && out[..skip] == text[..skip] && out[skip..resume] == MARK
      && Edited(text[at..], out[resume..], edits[1..])
  }

  function Later(edits: seq<Edit>, n: nat): seq<Edit> {
    if edits == [] then [] else [Edit(edits[0].skip + n, edits[0].at + n)] + edits[1..]
  }

  /** The same replacements, counted from the beginning of the text when the first is counted from `base`. */
  function Absolute(edits: seq<Edit>, base: nat): seq<Edit>
    decreases |edits|
  {
    if edits == [] then []
    else [Edit(base + edits[0].skip, base + edits[0].at)] + Absolute(edits[1..], base + edits[0].at)
  }

  lemma AbsoluteLater(edits: seq<Edit>, n: nat, base: nat)
    ensures Absolute(Later(edits, n), base) == Absolute(edits, base + n)
  {
  }

  lemma {:induction false} AbsoluteShift(edits: seq<Edit>, base: nat)
    ensures |Absolute(edits, base)| == |Absolute(edits, 0)|
    ensures forall k | 0 <= k < |Absolute(edits, 0)| ::
      Absolute(edits, base)[k] == Edit(Absolute(edits, 0)[k].skip + base, Absolute(edits, 0)[k].at + base)
    decreases |edits|
  {
    if edits != [] {
      AbsoluteShift(edits[1..], edits[0].at);
      AbsoluteShift(edits[1..], base + edits[0].at);
    }
  }

  lemma AbsoluteMember(edits: seq<Edit>, base: nat, edit: Edit)
    ensures edit in Absolute(edits, base) <==>
      edit.skip >= base && edit.at >= base && Edit(edit.skip - base, edit.at - base) in Absolute(edits, 0)
  {
    hide Absolute;
    AbsoluteShift(edits, base);
    if edit.skip >= base && edit.at >= base && Edit(edit.skip - base, edit.at - base) in Absolute(edits, 0) {
      var k :| 0 <= k < |Absolute(edits, 0)| && Absolute(edits, 0)[k] == Edit(edit.skip - base, edit.at - base);
      assert Absolute(edits, base)[k] == edit;
    }
  }

  predicate EndsUserInfo(c: char) {
    EndsAuthority(c) || EndsUrl(c)
  }

  /** A URL begins three characters before `cut`, and its authority has its last `@` at `at`. */
  ghost predicate IsUserInfo(text: string, cut: nat, at: nat) {
    && 3 <= cut <= at < |text| && BeginsUrl(text, cut - 3) && LastAtSign(text, cut, at)
  }

  ghost predicate LastAtSign(text: string, cut: nat, at: nat) {
    && cut <= at < |text| && text[at] == '@'
    && (forall k | cut <= k < at :: !EndsUserInfo(text[k]))
    && (forall j | at < j < |text| && text[j] == '@' :: exists k :: at < k < j && EndsUserInfo(text[k]))
  }

  /** Within its candidate the program finds exactly that `@`. */
  lemma CandidateAtSign(text: string, candidate: string, start: nat, cut: nat, at: nat)
    requires SliceOf(candidate, text, start) && cut <= |candidate| && InsideUrl(candidate, cut, |candidate|)
    requires start + |candidate| < |text| ==> EndsUrl(text[start + |candidate|])
    ensures LastAtSign(text, start + cut, at) <==>
      at >= start && AtSign(candidate, cut) == Some(at - start)
  {
    hide EndsUrl, EndsAuthority;
    AtSignEndsNothing();
    var stop := AuthorityEnd(candidate, cut);
    StopOfCandidate(text, candidate, start, cut);
    match LastAt(candidate, cut, stop)
    case None =>
      assert forall k | start + cut <= k < start + stop :: text[k] == candidate[k - start];
    case Some(last) =>
      assert forall k | start + cut <= k < start + stop :: text[k] == candidate[k - start];
  }

  lemma AtSignEndsNothing()
    ensures !EndsUserInfo('@')
  {
  }

  lemma StopOfCandidate(text: string, candidate: string, start: nat, cut: nat)
    requires SliceOf(candidate, text, start) && cut <= |candidate| && InsideUrl(candidate, cut, |candidate|)
    requires start + |candidate| < |text| ==> EndsUrl(text[start + |candidate|])
    ensures var stop := start + AuthorityEnd(candidate, cut);
      && (forall k | start + cut <= k < stop :: !EndsUserInfo(text[k]))
      && (stop < |text| ==> EndsUserInfo(text[stop]))
  {
    hide EndsUrl, EndsAuthority;
    var stop := AuthorityEnd(candidate, cut);
    forall k | start + cut <= k < start + stop ensures !EndsUserInfo(text[k]) {
      assert candidate[k - start] == text[start + (k - start)];
    }
    if stop < |candidate| {
      assert candidate[stop] == text[start + stop];
    }
  }

  /** Beyond the first candidate, the user information of the text is that of the remaining text. */
  lemma UserInfoOfTheRest(text: string, cut: nat, at: nat)
    requires FindSeparator(text, 0) < |text| && IsUserInfo(text, cut, at) && cut - 3 != FindSeparator(text, 0)
    ensures var end := UrlEnd(text, FindSeparator(text, 0) + 3);
      end <= cut && end <= at && IsUserInfo(text[end..], cut - end, at - end)
  {
    hide SeparatorAt, EndsUrl, FindSeparator, UrlEnd, BeginsUrl, EndsUserInfo, LastAtSign, SchemeFollowsWideChar;
    var end := UrlEnd(text, FindSeparator(text, 0) + 3);
    LaterUrlIsInRest(text, cut - 3);
    BeginsAtSeparator(text, cut - 3);
    UrlOfTheRest(text, cut - 3);
    AtSignOfTheRest(text, end, cut, at);
  }

  lemma UserInfoFromTheRest(text: string, end: nat, cut: nat, at: nat)
    requires FindSeparator(text, 0) < |text| && end == UrlEnd(text, FindSeparator(text, 0) + 3)
    requires IsUserInfo(text[end..], cut, at)
    ensures IsUserInfo(text, end + cut, end + at) && end + cut - 3 != FindSeparator(text, 0)
  {
    hide SeparatorAt, EndsUrl, FindSeparator, UrlEnd, BeginsUrl, EndsUserInfo, LastAtSign, SchemeFollowsWideChar;
    BeginsAtSeparator(text[end..], cut - 3);
    SeparatorInSuffix(text, end, cut - 3);
    UrlOfTheRest(text, end + cut - 3);
    AtSignOfTheRest(text, end, end + cut, end + at);
  }

  lemma BeginsAtSeparator(text: string, separator: nat)
    requires BeginsUrl(text, separator)
    ensures SeparatorAt(text, separator)
  {
  }

  lemma AtSignOfTheRest(text: string, end: nat, cut: nat, at: nat)
    requires end <= cut && end <= at && end <= |text|
    ensures LastAtSign(text, cut, at) <==> LastAtSign(text[end..], cut - end, at - end)
  {
    hide EndsUserInfo;
    var rest := text[end..];
    assert forall k: nat | end <= k < |text| :: text[k] == rest[k - end];
    assert forall k: nat | k < |rest| :: rest[k] == text[k + end];
    if LastAtSign(text, cut, at) {
      forall j | at - end < j < |rest| && rest[j] == '@' ensures exists k :: at - end < k < j && EndsUserInfo(rest[k]) {
        var k :| at < k < j + end && EndsUserInfo(text[k]);
        assert EndsUserInfo(rest[k - end]);
      }
    }
    if LastAtSign(rest, cut - end, at - end) {
      forall j | at < j < |text| && text[j] == '@' ensures exists k :: at < k < j && EndsUserInfo(text[k]) {
        var k :| at - end < k < j - end && EndsUserInfo(rest[k]);
        assert EndsUserInfo(text[k + end]);
      }
    }
  }

  /** What is replaced in the candidate `text[start..end]`. */
  function EditWithin(text: string, separator: nat, start: nat, end: nat): (edit: Option<Edit>)
    requires start <= separator && separator + 3 <= end <= |text|
    ensures edit.Some? ==> edit.value.at < end
  {
    match AtSign(text[start..end], separator - start + 3)
    case None => None
    case Some(at) => Some(Edit(separator + 3, start + at))
  }

  /** What is replaced in the first candidate of a text. */
  function FirstEdit(text: string): (first: Option<Edit>)
    requires FindSeparator(text, 0) < |text|
    ensures first.Some? ==> first.value.at < UrlEnd(text, FindSeparator(text, 0) + 3)
  {
    var separator := FindSeparator(text, 0);
    EditWithin(text, separator, SchemeStart(text, separator), UrlEnd(text, separator + 3))
  }

  /** The replacements in a text whose first candidate ends at `end`, from those in what follows. */
  function Joined(first: Option<Edit>, later: seq<Edit>, end: nat): seq<Edit>
    requires first.Some? ==> first.value.at <= end
  {
    if first.None? then Later(later, end) else [first.value] + Later(later, end - first.value.at)
  }

  lemma JoinedMember(first: Option<Edit>, later: seq<Edit>, end: nat, edit: Edit)
    requires first.Some? ==> first.value.at <= end
    ensures edit in Absolute(Joined(first, later, end), 0) <==> first == Some(edit) || edit in Absolute(later, end)
  {
    if first.None? {
      AbsoluteLater(later, end, 0);
    } else {
      AbsoluteFirst(first.value, later, end);
    }
  }

  lemma CandidateUserInfo(text: string, candidate: string, at: nat)
    requires FindSeparator(text, 0) < |text|
    requires SliceOf(candidate, text, SchemeStart(text, FindSeparator(text, 0)))
    requires |candidate| == UrlEnd(text, FindSeparator(text, 0) + 3) - SchemeStart(text, FindSeparator(text, 0))
    ensures var start := SchemeStart(text, FindSeparator(text, 0));
      var cut := FindSeparator(text, 0) - start + 3;
      IsUserInfo(text, start + cut, at) <==>
        at >= start && AtSign(candidate, cut) == Some(at - start)
  {
    hide EndsUrl, EndsAuthority, IsSchemeChar, AtSign, SliceOf, InsideUrl, LastAtSign, EndsUserInfo, SeparatorAt,
      FindSeparator, SchemeStart, UrlEnd, BeginsUrl;
    var separator := FindSeparator(text, 0);
    var start, end := SchemeStart(text, separator), UrlEnd(text, separator + 3);
    CandidateSeparator(text, candidate, end);
    CandidateAtSign(text, candidate, start, separator - start + 3, at);
    FirstBegins(text);
    AtSignInside(text, separator + 3, at);
  }

  lemma FirstUserInfo(text: string, at: nat)
    requires FindSeparator(text, 0) < |text|
    ensures IsUserInfo(text, FindSeparator(text, 0) + 3, at) <==>
      FirstEdit(text) == Some(Edit(FindSeparator(text, 0) + 3, at))
  {
    hide SeparatorAt, EndsUrl, IsSchemeChar, AtSign, SliceOf, FindSeparator, SchemeStart, UrlEnd, IsUserInfo,
      EditWithin;
    var separator := FindSeparator(text, 0);
    var start, end := SchemeStart(text, separator), UrlEnd(text, separator + 3);
    SliceIsSlice(text, start, end);
    CandidateUserInfo(text, text[start..end], at);
    EditWithinIs(text, separator, start, end, at);
  }

  lemma EditWithinIs(text: string, separator: nat, start: nat, end: nat, at: nat)
    requires start <= separator && separator + 3 <= end <= |text|
    ensures EditWithin(text, separator, start, end) == Some(Edit(separator + 3, at)) <==>
      at >= start && AtSign(text[start..end], separator - start + 3) == Some(at - start)
  {
    hide AtSign;
  }

  lemma FirstBegins(text: string)
    requires FindSeparator(text, 0) < |text|
    ensures BeginsUrl(text, FindSeparator(text, 0))
  {
  }

  lemma AtSignInside(text: string, cut: nat, at: nat)
    ensures LastAtSign(text, cut, at) ==> cut <= at < |text|
  {
  }

  lemma NoUserInfo(text: string, cut: nat, at: nat)
    requires FindSeparator(text, 0) == |text|
    ensures !IsUserInfo(text, cut, at)
  {
    forall separator: nat ensures !BeginsUrl(text, separator) {
      if separator + 3 <= |text| {
        assert !SeparatorAt(text, separator);
      }
    }
  }

  lemma AllAreReplaced(text: string, later: seq<Edit>, edit: Edit)
    requires FindSeparator(text, 0) < |text|
    requires var end := UrlEnd(text, FindSeparator(text, 0) + 3);
      forall e: Edit :: e in Absolute(later, 0) <==> IsUserInfo(text[end..], e.skip, e.at)
    ensures var end := UrlEnd(text, FindSeparator(text, 0) + 3);
      edit in Absolute(Joined(FirstEdit(text), later, end), 0) <==> IsUserInfo(text, edit.skip, edit.at)
  {
    hide FindSeparator, SchemeStart, UrlEnd, IsUserInfo, Absolute, FirstEdit, Joined;
    var separator := FindSeparator(text, 0);
    var end := UrlEnd(text, separator + 3);
    JoinedMember(FirstEdit(text), later, end, edit);
    AbsoluteMember(later, end, edit);
    FirstUserInfo(text, edit.at);
    FirstEditSkip(text);
    if IsUserInfo(text, edit.skip, edit.at) && edit.skip != separator + 3 {
      UserInfoInside(text, edit.skip, edit.at);
      UserInfoOfTheRest(text, edit.skip, edit.at);
    }
    if edit in Absolute(later, end) {
      UserInfoFromTheRest(text, end, edit.skip - end, edit.at - end);
    }
  }

  lemma FirstEditSkip(text: string)
    requires FindSeparator(text, 0) < |text|
    ensures FirstEdit(text).Some? ==> FirstEdit(text).value.skip == FindSeparator(text, 0) + 3
  {
  }

  lemma UserInfoInside(text: string, cut: nat, at: nat)
    requires IsUserInfo(text, cut, at)
    ensures 3 <= cut <= at < |text|
  {
  }

  lemma EditedIntro(text: string, out: string, edit: Edit, tail: string, tailOut: string, edits: seq<Edit>)
    requires IsCredential(text, edit) && text[edit.at..] == tail
    requires edit.skip + |MARK| <= |out| && out[..edit.skip] == text[..edit.skip]
    requires out[edit.skip..edit.skip + |MARK|] == MARK && out[edit.skip + |MARK|..] == tailOut
    requires Edited(tail, tailOut, edits)
    ensures Edited(text, out, [edit] + edits)
  {
    hide EndsUrl, EndsAuthority, SeparatorAt;
    assert ([edit] + edits)[1..] == edits;
  }

  lemma EditedLater(before: string, text: string, out: string, edits: seq<Edit>)
    requires Edited(text, out, edits)
    ensures Edited(before + text, before + out, Later(edits, |before|))
  {
    hide EndsUrl, EndsAuthority, SeparatorAt, MARK;
    if edits != [] {
      var edit := Edit(edits[0].skip + |before|, edits[0].at + |before|);
      CredentialLater(before, text, edits[0]);
      PiecesLater(before, text, out, edits[0].skip, edits[0].at, edits[0].skip + |MARK|);
      EditedIntro(before + text, before + out, edit, text[edits[0].at..], out[edits[0].skip + |MARK|..], edits[1..]);
    }
  }

  lemma PiecesLater(before: string, text: string, out: string, skip: nat, at: nat, resume: nat)
    requires skip <= at <= |text| && skip <= resume <= |out| && out[..skip] == text[..skip]
    ensures var n := |before|;
      && (before + text)[n + at..] == text[at..] && (before + out)[n + resume..] == out[resume..]
      && (before + out)[n + skip..n + resume] == out[skip..resume]
      && (before + out)[..n + skip] == (before + text)[..n + skip]
  {
    SuffixLater(before, text, at);
    SuffixLater(before, out, resume);
    PrefixLater(before, text, skip);
    PrefixLater(before, out, skip);
    MiddleLater(before, out, skip, resume);
  }

  lemma SuffixLater(before: string, t: string, n: nat)
    requires n <= |t|
    ensures (before + t)[|before| + n..] == t[n..]
  {
  }

  lemma PrefixLater(before: string, t: string, n: nat)
    requires n <= |t|
    ensures (before + t)[..|before| + n] == before + t[..n]
  {
  }

  lemma MiddleLater(before: string, t: string, from: nat, upTo: nat)
    requires from <= upTo <= |t|
    ensures (before + t)[|before| + from..|before| + upTo] == t[from..upTo]
  {
  }

  lemma CredentialLater(before: string, text: string, edit: Edit)
    requires IsCredential(text, edit)
    ensures IsCredential(before + text, Edit(edit.skip + |before|, edit.at + |before|))
  {
    hide EndsUrl, EndsAuthority;
    var t := before + text;
    assert forall k: nat | k < |text| :: t[|before| + k] == text[k];
    assert SeparatorAt(t, edit.skip + |before| - 3);
    forall k | edit.skip + |before| <= k < edit.at + |before| ensures !EndsAuthority(t[k]) && !EndsUrl(t[k]) {
      assert t[|before| + (k - |before|)] == text[k - |before|];
    }
  }

  /** Everything outside the credentials of a URL is copied and all of these are replaced: the output is the text
      with the mark in place of exactly the stretches from the beginning of an authority to its last `@`. */
  lemma {:induction false} OnlyCredentialsAreReplaced(text: string) returns (edits: seq<Edit>)
    ensures Redacted(text).Some? ==>
      && Edited(text, Redacted(text).value, edits)
      && forall edit: Edit :: edit in Absolute(edits, 0) <==> IsUserInfo(text, edit.skip, edit.at)
    decreases |text|
  {
    hide EndsUrl, IsSchemeChar, IsOneByte, RedactUrl, FindSeparator, SchemeStart, UrlEnd, Edited, IsUserInfo, Absolute,
      FirstEdit, Joined;
    var separator := FindSeparator(text, 0);
    edits := [];
    if separator == |text| {
      NothingEdited(text);
      forall edit: Edit ensures !IsUserInfo(text, edit.skip, edit.at) {
        NoUserInfo(text, edit.skip, edit.at);
      }
    } else {
      var start, end := SchemeStart(text, separator), UrlEnd(text, separator + 3);
      RedactedStep(text, start, end);
      var later := OnlyCredentialsAreReplaced(text[end..]);
      if Redacted(text).Some? {
        CandidateEdited(text, Redacted(text[end..]).value, later);
        edits := Joined(FirstEdit(text), later, end);
        forall edit: Edit ensures edit in Absolute(edits, 0) <==> IsUserInfo(text, edit.skip, edit.at) {
          AllAreReplaced(text, later, edit);
        }
      }
    }
  }

  lemma NothingEdited(text: string)
    ensures Edited(text, text, []) && Absolute([], 0) == []
  {
  }

  lemma CandidateEdited(text: string, rest: string, later: seq<Edit>)
    requires FindSeparator(text, 0) < |text|
    requires Edited(text[UrlEnd(text, FindSeparator(text, 0) + 3)..], rest, later)
    ensures var start, end := SchemeStart(text, FindSeparator(text, 0)), UrlEnd(text, FindSeparator(text, 0) + 3);
      Edited(text, text[..start] + RedactUrl(text[start..end]) + rest, Joined(FirstEdit(text), later, end))
  {
    hide EndsUrl, IsSchemeChar, FindSeparator, SchemeStart, UrlEnd, Edited, EndsAuthority, AtSign, RedactUrl, Splice,
      SeparatorAt, Later, SliceOf, InsideUrl, IsCredential;
    var separator := FindSeparator(text, 0);
    var start, end := SchemeStart(text, separator), UrlEnd(text, separator + 3);
    SliceIsSlice(text, start, end);
    CandidateSeparator(text, text[start..end], end);
    var cut := separator - start + 3;
    RedactUrlCases(text[start..end]);
    match AtSign(text[start..end], cut)
    case None =>
      UneditedCandidate(text, start, end, rest, later);
    case Some(at) =>
      CredentialOfCandidate(text, text[start..end], start, cut, at);
      EditedCandidate(text, start, cut, at, end, rest, later);
  }

  lemma AbsoluteFirst(edit: Edit, later: seq<Edit>, end: nat)
    requires edit.at <= end
    ensures Absolute([edit] + Later(later, end - edit.at), 0) == [edit] + Absolute(later, end)
  {
    AbsoluteLater(later, end - edit.at, edit.at);
    assert ([edit] + Later(later, end - edit.at))[1..] == Later(later, end - edit.at);
  }

  lemma RedactUrlCases(url: string)
    requires FindSeparator(url, 0) < |url|
    ensures var cut := FindSeparator(url, 0) + 3;
      RedactUrl(url) == match AtSign(url, cut)
                        case None => url
                        case Some(at) => Splice(url, cut, MARK, at)
  {
    hide FindSeparator, AtSign, Splice, MARK;
  }

  lemma UneditedCandidate(text: string, start: nat, end: nat, rest: string, later: seq<Edit>)
    requires start <= end <= |text| && Edited(text[end..], rest, later)
    ensures Edited(text, text[..start] + text[start..end] + rest, Later(later, end))
  {
    hide Edited, Later;
    assert text == text[..end] + text[end..];
    assert text[..start] + text[start..end] == text[..end];
    EditedLater(text[..end], text[end..], rest, later);
  }

  lemma CredentialOfCandidate(text: string, candidate: string, start: nat, cut: nat, at: nat)
    requires SliceOf(candidate, text, start) && 3 <= cut <= |candidate| && AtSign(candidate, cut) == Some(at)
    requires SeparatorAt(candidate, cut - 3) && InsideUrl(candidate, cut, |candidate|)
    ensures IsCredential(text, Edit(start + cut, start + at))
  {
    hide EndsUrl, EndsAuthority;
    SeparatorOfSlice(candidate, text, start, cut - 3);
    forall k | start + cut <= k < start + at ensures !EndsAuthority(text[k]) && !EndsUrl(text[k]) {
      assert candidate[k - start] == text[start + (k - start)];
    }
  }

  lemma EditedCandidate(text: string, start: nat, cut: nat, at: nat, end: nat, rest: string, later: seq<Edit>)
    requires start + cut <= start + at <= end <= |text| && IsCredential(text, Edit(start + cut, start + at))
    requires Edited(text[end..], rest, later)
    ensures Edited(text, text[..start] + Splice(text[start..end], cut, MARK, at) + rest,
      [Edit(start + cut, start + at)] + Later(later, end - start - at))
  {
    hide EndsUrl, EndsAuthority, IsCredential, Later, MARK, Splice, Edited;
    var kept := text[start + at..end];
    EditedLater(kept, text[end..], rest, later);
    assert kept + text[end..] == text[start + at..];
    var out := text[..start] + Splice(text[start..end], cut, MARK, at) + rest;
    PiecesOfSplice(text, start, cut, MARK, at, end, rest);
    EditedIntro(text, out, Edit(start + cut, start + at), text[start + at..], kept + rest,
      Later(later, end - start - at));
  }

  lemma Regroup(a: string, b: string, m: string, c: string, d: string)
    ensures a + (b + m + c) + d == (a + b) + m + (c + d)
  {
  }

  lemma PiecesOfSplice(text: string, start: nat, cut: nat, mark: string, at: nat, end: nat, rest: string)
    requires start + cut <= start + at <= end <= |text|
    ensures var out := text[..start] + Splice(text[start..end], cut, mark, at) + rest;
      && start + cut + |mark| <= |out| && out[..start + cut] == text[..start + cut]
      && out[start + cut..start + cut + |mark|] == mark
      && out[start + cut + |mark|..] == text[start + at..end] + rest
  {
    var out := text[..start] + Splice(text[start..end], cut, mark, at) + rest;
    assert text[start..end][..cut] == text[start..start + cut] && text[start..end][at..] == text[start + at..end];
    assert text[..start] + text[start..start + cut] == text[..start + cut];
    Regroup(text[..start], text[start..start + cut], mark, text[start + at..end], rest);
    ThreeParts(text[..start + cut], mark, text[start + at..end] + rest, out);
  }

  // ----- redacting twice changes nothing more -----

  /** None of the mark's characters means anything to the scanner. */
  predicate Plain(mark: string) {
    forall k | 0 <= k < |mark| :: !EndsUrl(mark[k]) && !EndsAuthority(mark[k]) && mark[k] != '@' && mark[k] != ':'
  }

  lemma MarkIsPlain()
    ensures Plain(MARK)
  {
  }

  lemma SpliceIndex(t: string, cut: nat, mark: string, resume: nat, k: nat)
    requires cut <= resume <= |t| && k < |Splice(t, cut, mark, resume)|
    ensures Splice(t, cut, mark, resume)[k] ==
            if k < cut then t[k] else if k < cut + |mark| then mark[k - cut] else t[k - cut - |mark| + resume]
  {
  }

  /** A candidate keeps its scheme and separator, and ends nowhere new. */
  lemma SplicedUrlShape(url: string, mark: string, at: nat)
    requires Plain(mark) && FindSeparator(url, 0) + 3 <= at <= |url|
    ensures var cut := FindSeparator(url, 0) + 3;
      var spliced := Splice(url, cut, mark, at);
      && spliced[..cut] == url[..cut] && FindSeparator(spliced, 0) == cut - 3
      && ((forall k | cut <= k < |url| :: !EndsUrl(url[k])) ==> forall k | cut <= k < |spliced| :: !EndsUrl(spliced[k]))
  {
    var cut := FindSeparator(url, 0) + 3;
    var spliced := Splice(url, cut, mark, at);
    assert spliced[..cut] == url[..cut];
    PrefixKeepsSeparator(url, spliced);
    forall k | cut <= k < |spliced|
      ensures (forall j | cut <= j < |url| :: !EndsUrl(url[j])) ==> !EndsUrl(spliced[k])
    {
      SpliceIndex(url, cut, mark, at, k);
    }
  }

  /** The mark is found where the credentials were, and splicing it in again changes nothing. */
  lemma SpliceAgain(url: string, mark: string, at: nat, end: nat)
    requires Plain(mark) && HasUserInfo(url, FindSeparator(url, 0), at, end)
    requires FindSeparator(url, 0) + 3 <= at <= |url|
    ensures var cut := FindSeparator(url, 0) + 3;
      var spliced := Splice(url, cut, mark, at);
      && HasUserInfo(spliced, cut - 3, cut + |mark|, cut + |mark| + end - at)
      && Splice(spliced, cut, mark, cut + |mark|) == spliced
  {
    hide EndsUrl, EndsAuthority, FindSeparator, SeparatorAt, HasUserInfo, Splice, SliceOf, Plain;
    var cut := FindSeparator(url, 0) + 3;
    var spliced := Splice(url, cut, mark, at);
    SplicedUrlShape(url, mark, at);
    SplicedParts(url, cut, mark, at);
    UserInfoIsMark(url, mark, url[at..], at, end, spliced);
  }

  lemma SplicedParts(t: string, cut: nat, mark: string, at: nat)
    requires cut <= at <= |t|
    ensures SliceOf(t[at..], t, at)
    ensures var spliced := Splice(t, cut, mark, at);
      && |spliced| == cut + |mark| + |t| - at
      && SliceOf(mark, spliced, cut) && SliceOf(t[at..], spliced, cut + |mark|)
      && Splice(spliced, cut, mark, cut + |mark|) == spliced
  {
    ThreeParts(t[..cut], mark, t[at..], Splice(t, cut, mark, at));
  }

  lemma MarkInside(mark: string, t: string, cut: nat)
    requires Plain(mark) && SliceOf(mark, t, cut)
    ensures forall k | cut <= k < cut + |mark| :: !EndsAuthority(t[k])
  {
    hide EndsUrl, EndsAuthority;
    forall k | cut <= k < cut + |mark| ensures !EndsAuthority(t[k]) {
      assert t[cut + (k - cut)] == mark[k - cut];
    }
  }

  lemma SameTail(tail: string, t: string, at: nat, u: string, m: nat)
    requires SliceOf(tail, t, at) && SliceOf(tail, u, m)
    ensures forall k | m <= k < m + |tail| :: u[k] == t[k - m + at]
  {
    forall k | m <= k < m + |tail| ensures u[k] == t[k - m + at] {
      assert u[m + (k - m)] == tail[k - m] == t[at + (k - m)];
    }
  }

  lemma UserInfoIsMark(url: string, mark: string, tail: string, at: nat, end: nat, spliced: string)
    requires Plain(mark) && HasUserInfo(url, FindSeparator(url, 0), at, end)
    requires SliceOf(tail, url, at) && |tail| == |url| - at
    requires var cut := FindSeparator(url, 0) + 3;
      && FindSeparator(spliced, 0) == cut - 3 && |spliced| == cut + |mark| + |tail|
      && SliceOf(mark, spliced, cut) && SliceOf(tail, spliced, cut + |mark|)
    ensures var cut := FindSeparator(url, 0) + 3;
      HasUserInfo(spliced, cut - 3, cut + |mark|, cut + |mark| + end - at)
  {
    hide EndsUrl, EndsAuthority, FindSeparator, SeparatorAt, SliceOf, Plain;
    var cut := FindSeparator(url, 0) + 3;
    MarkInside(mark, spliced, cut);
    SameTail(tail, url, at, spliced, cut + |mark|);
  }

  lemma RedactUrlIsIdempotent(url: string)
    ensures RedactUrl(RedactUrl(url)) == RedactUrl(url)
  {
    OnlyUserInfoIsReplaced(url);
    OnlyUserInfoIsReplaced(RedactUrl(url));
    MarkIsPlain();
    if separator: nat, at: nat, end: nat :| HasUserInfo(url, separator, at, end) {
      assert FindSeparator(url, 0) == separator;
      SpliceAgain(url, MARK, at, end);
    }
  }

  /** The first character decides nothing new when it ends a URL: it is copied. */
  lemma TerminatorIsKept(text: string)
    requires text != "" && EndsUrl(text[0]) && Redacted(text).Some?
    ensures Redacted(text).value != "" && Redacted(text).value[0] == text[0]
  {
    var separator := FindSeparator(text, 0);
    if separator < |text| {
      assert SchemeStart(text, separator) > 0;
    }
  }

  lemma ThreeParts(a: string, b: string, c: string, t: string)
    requires t == a + b + c
    ensures t[..|a|] == a && t[|a|..|a| + |b|] == b && t[|a| + |b|..] == c
    ensures SliceOf(a, t, 0) && SliceOf(b, t, |a|) && SliceOf(c, t, |a| + |b|)
  {
  }

  lemma {:induction false} SchemeStartOfPrefix(t: string, u: string, upTo: nat)
    requires Agree(t, u, upTo)
    ensures SchemeStart(t, upTo) == SchemeStart(u, upTo)
  {
    hide IsSchemeChar;
    if upTo > 0 {
      SchemeStartOfPrefix(t, u, upTo - 1);
    }
  }

  lemma UrlEndsAt(t: string, from: nat, i: nat)
    requires from <= i <= |t| && (forall k | from <= k < i :: !EndsUrl(t[k])) && (i < |t| ==> EndsUrl(t[i]))
    ensures UrlEnd(t, from) == i
  {
    hide EndsUrl;
  }

  predicate InsideUrl(t: string, from: nat, upTo: nat) {
    upTo <= |t| && forall k | from <= k < upTo :: !EndsUrl(t[k])
  }

  /** What the scanner sees of a text that agrees with another up to and including the first separator. */
  lemma ScanAfterCandidate(text: string, out: string, end: nat)
    requires FindSeparator(text, 0) < |text| && FindSeparator(text, 0) + 3 <= end <= |out|
    requires Agree(text, out, FindSeparator(text, 0) + 3)
    requires InsideUrl(out, FindSeparator(text, 0) + 3, end)
    requires end < |out| ==> EndsUrl(out[end])
    ensures var separator := FindSeparator(text, 0);
      && FindSeparator(out, 0) == separator && SchemeStart(out, separator) == SchemeStart(text, separator)
      && UrlEnd(out, separator + 3) == end
  {
    hide SeparatorAt, EndsUrl, IsSchemeChar, FindSeparator, UrlEnd, SchemeStart;
    var separator := FindSeparator(text, 0);
    PrefixKeepsSeparator(text, out);
    SchemeStartOfPrefix(text, out, separator);
    UrlEndsAt(out, separator + 3, end);
  }

  /** Redacting is idempotent on every text on which it does not panic. */
  lemma {:induction false} RedactionIsIdempotent(text: string)
    ensures Redacted(text).Some? ==> Redacted(Redacted(text).value) == Redacted(text)
    decreases |text|
  {
    hide EndsUrl, IsSchemeChar, IsOneByte, RedactUrl, FindSeparator, SchemeStart, UrlEnd;
    var separator := FindSeparator(text, 0);
    if separator < |text| {
      var start, end := SchemeStart(text, separator), UrlEnd(text, separator + 3);
      RedactedStep(text, start, end);
      RedactionIsIdempotent(text[end..]);
      if Redacted(text).Some? {
        if end < |text| {
          TerminatorIsKept(text[end..]);
        }
        RescannedCandidate(text, Redacted(text[end..]).value);
      }
    }
  }

  /** Scanning the redacted text finds the redacted candidate, keeps it, and goes on with the redacted rest. */
  lemma RescannedCandidate(text: string, rest: string)
    requires FindSeparator(text, 0) < |text|
    requires rest != "" ==> EndsUrl(rest[0])
    requires var start := SchemeStart(text, FindSeparator(text, 0)); start > 0 ==> IsOneByte(text[start - 1])
    ensures var separator := FindSeparator(text, 0);
      var start, end := SchemeStart(text, separator), UrlEnd(text, separator + 3);
      var piece := text[..start] + RedactUrl(text[start..end]);
      Redacted(piece + rest) == Preceded(piece, Redacted(rest))
  {
    hide EndsUrl, IsSchemeChar, IsOneByte, RedactUrl, FindSeparator, SchemeStart, UrlEnd, Redacted, Preceded, SliceOf,
      Agree, InsideUrl;
    var separator := FindSeparator(text, 0);
    var start, end := SchemeStart(text, separator), UrlEnd(text, separator + 3);
    var candidate := text[start..end];
    SliceIsSlice(text, start, end);
    PrefixIsSlice(text, start);
    CandidateSeparator(text, candidate, end);
    RedactedCandidate(candidate);
    RedactUrlIsIdempotent(candidate);
    RescannedPieces(text, text[..start], candidate, RedactUrl(candidate), rest);
  }

  lemma RescannedPieces(text: string, before: string, candidate: string, redacted: string, rest: string)
    requires FindSeparator(text, 0) < |text| && |before| == SchemeStart(text, FindSeparator(text, 0))
    requires |before| > 0 ==> IsOneByte(text[|before| - 1])
    requires SliceOf(before, text, 0) && SliceOf(candidate, text, |before|)
    requires rest != "" ==> EndsUrl(rest[0])
    requires var cut := FindSeparator(text, 0) + 3 - |before|;
      Agree(candidate, redacted, cut) && InsideUrl(redacted, cut, |redacted|)
    requires RedactUrl(redacted) == redacted
    ensures Redacted(before + redacted + rest) == Preceded(before + redacted, Redacted(rest))
  {
    hide EndsUrl, IsSchemeChar, IsOneByte, RedactUrl, FindSeparator, SchemeStart, UrlEnd, Redacted, Preceded, SliceOf,
      Agree, InsideUrl;
    var out := before + redacted + rest;
    ThreeParts(before, redacted, rest, out);
    RescannedText(text, before, candidate, redacted, rest, out);
  }

  lemma RescannedText(text: string, before: string, candidate: string, redacted: string, rest: string, out: string)
    requires FindSeparator(text, 0) < |text| && |before| == SchemeStart(text, FindSeparator(text, 0))
    requires |before| > 0 ==> IsOneByte(text[|before| - 1])
    requires SliceOf(before, text, 0) && SliceOf(candidate, text, |before|)
    requires rest != "" ==> EndsUrl(rest[0])
    requires var cut := FindSeparator(text, 0) + 3 - |before|;
      Agree(candidate, redacted, cut) && InsideUrl(redacted, cut, |redacted|)
    requires RedactUrl(redacted) == redacted
    requires |out| == |before| + |redacted| + |rest|
    requires SliceOf(before, out, 0) && SliceOf(redacted, out, |before|) && SliceOf(rest, out, |before| + |redacted|)
    requires out[..|before|] == before && out[|before|..|before| + |redacted|] == redacted
    requires out[|before| + |redacted|..] == rest
    ensures Redacted(out) == Preceded(before + redacted, Redacted(rest))
  {
    hide EndsUrl, IsSchemeChar, IsOneByte, RedactUrl, FindSeparator, SchemeStart, UrlEnd, Redacted, Preceded, SliceOf,
      Agree, InsideUrl;
    CandidateIsRescanned(text, before, candidate, redacted, rest, out);
    StepOfParts(out, before, redacted, rest);
  }

  lemma StepOfParts(out: string, before: string, candidate: string, rest: string)
    requires FindSeparator(out, 0) < |out| && |before| == SchemeStart(out, FindSeparator(out, 0))
    requires |before| + |candidate| == UrlEnd(out, FindSeparator(out, 0) + 3)
    requires out[..|before|] == before && out[|before|..|before| + |candidate|] == candidate
    requires out[|before| + |candidate|..] == rest
    requires |before| > 0 ==> IsOneByte(out[|before| - 1])
    ensures Redacted(out) == Preceded(before + RedactUrl(candidate), Redacted(rest))
  {
    hide EndsUrl, IsSchemeChar, IsOneByte, RedactUrl, FindSeparator, SchemeStart, UrlEnd, Redacted, Preceded;
    RedactedStep(out, |before|, |before| + |candidate|);
  }

  lemma CandidateIsRescanned(
      text: string, before: string, candidate: string, redacted: string, rest: string, out: string)
    requires FindSeparator(text, 0) < |text| && |before| == SchemeStart(text, FindSeparator(text, 0))
    requires SliceOf(before, text, 0) && SliceOf(candidate, text, |before|)
    requires rest != "" ==> EndsUrl(rest[0])
    requires var cut := FindSeparator(text, 0) + 3 - |before|;
      Agree(candidate, redacted, cut) && InsideUrl(redacted, cut, |redacted|)
    requires SliceOf(before, out, 0) && SliceOf(redacted, out, |before|) && SliceOf(rest, out, |before| + |redacted|)
    requires |out| == |before| + |redacted| + |rest|
    ensures var separator := FindSeparator(text, 0);
      && FindSeparator(out, 0) == separator && SchemeStart(out, separator) == |before|
      && UrlEnd(out, separator + 3) == |before| + |redacted|
    ensures |before| > 0 ==> out[|before| - 1] == text[|before| - 1]
  {
    hide EndsUrl, IsSchemeChar, FindSeparator, SchemeStart, UrlEnd, SeparatorAt;
    var separator := FindSeparator(text, 0);
    assert Agree(text, out, separator + 3) by {
      forall k | 0 <= k < separator + 3 ensures out[k] == text[k] {
        if k < |before| {
          assert out[0 + k] == before[k] == text[0 + k];
        } else {
          assert out[|before| + (k - |before|)] == redacted[k - |before|] == candidate[k - |before|];
        }
      }
    }
    assert InsideUrl(out, separator + 3, |before| + |redacted|) by {
      forall k | separator + 3 <= k < |before| + |redacted| ensures !EndsUrl(out[k]) {
        assert out[|before| + (k - |before|)] == redacted[k - |before|];
      }
    }
    assert rest != "" ==> out[|before| + |redacted| + 0] == rest[0];
    ScanAfterCandidate(text, out, |before| + |redacted|);
  }

  /** `part` is what `t` holds from `start` on. */
  predicate SliceOf(part: string, t: string, start: nat) {
    start + |part| <= |t| && forall k: nat | k < |part| :: part[k] == t[start + k]
  }

  lemma SliceIsSlice(t: string, from: nat, upTo: nat)
    requires from <= upTo <= |t|
    ensures SliceOf(t[from..upTo], t, from)
  {
  }

  lemma PrefixIsSlice(t: string, upTo: nat)
    requires upTo <= |t|
    ensures SliceOf(t[..upTo], t, 0)
  {
  }

  lemma SeparatorOfSlice(part: string, t: string, start: nat, k: nat)
    requires SliceOf(part, t, start)
    ensures SeparatorAt(part, k) <==> SeparatorAt(t, start + k) && k + 3 <= |part|
  {
    if k + 3 <= |part| {
      assert part[k] == t[start + k];
      assert part[k + 1] == t[start + (k + 1)];
      assert part[k + 2] == t[start + (k + 2)];
    }
  }

  lemma SeparatorInSuffix(text: string, from: nat, k: nat)
    requires from <= |text|
    ensures SeparatorAt(text[from..], k) <==> SeparatorAt(text, from + k)
  {
    assert text[from..|text|] == text[from..];
    SliceIsSlice(text, from, |text|);
    SeparatorOfSlice(text[from..], text, from, k);
  }

  lemma FirstSeparator(t: string, i: nat)
    requires SeparatorAt(t, i) && forall k: nat | k < i :: !SeparatorAt(t, k)
    ensures FindSeparator(t, 0) == i
  {
  }

  lemma CandidateSeparator(text: string, candidate: string, end: nat)
    requires FindSeparator(text, 0) < |text| && end == UrlEnd(text, FindSeparator(text, 0) + 3)
    requires SliceOf(candidate, text, SchemeStart(text, FindSeparator(text, 0)))
    requires |candidate| == end - SchemeStart(text, FindSeparator(text, 0))
    ensures var cut := FindSeparator(text, 0) - SchemeStart(text, FindSeparator(text, 0));
      FindSeparator(candidate, 0) == cut && InsideUrl(candidate, cut + 3, |candidate|)
  {
    hide SeparatorAt, EndsUrl, IsSchemeChar, FindSeparator, UrlEnd, SchemeStart;
    var separator := FindSeparator(text, 0);
    var start := SchemeStart(text, separator);
    forall k: nat | k <= separator - start ensures SeparatorAt(candidate, k) <==> k == separator - start {
      SeparatorOfSlice(candidate, text, start, k);
    }
    FirstSeparator(candidate, separator - start);
    assert forall k: nat | separator - start + 3 <= k < |candidate| :: candidate[k] == text[start + k];
  }

  lemma RedactedCandidate(candidate: string)
    requires FindSeparator(candidate, 0) < |candidate|
    requires InsideUrl(candidate, FindSeparator(candidate, 0) + 3, |candidate|)
    ensures var cut := FindSeparator(candidate, 0) + 3;
      var redacted := RedactUrl(candidate);
      Agree(candidate, redacted, cut) && InsideUrl(redacted, cut, |redacted|)
  {
    hide EndsUrl, EndsAuthority, IsSchemeChar, IsOneByte;
    var cut := FindSeparator(candidate, 0) + 3;
    MarkIsPlain();
    match AtSign(candidate, cut)
    case None =>
    case Some(at) => SplicedUrlShape(candidate, MARK, at);
  }

  // ----- when the program panics -----

  /** A separator begins a URL of its own unless it stands inside the URL of an earlier separator. */
  ghost predicate BeginsUrl(text: string, separator: nat) {
    && SeparatorAt(text, separator)
    && forall earlier: nat | earlier < separator && SeparatorAt(text, earlier) ::
         exists k :: earlier + 3 <= k < separator && EndsUrl(text[k])
  }

  /** The scheme of that URL directly follows a character of more than one byte. */
  ghost predicate SchemeFollowsWideChar(text: string, separator: nat) {
    && separator <= |text|
    && exists i :: 0 <= i < separator && !IsOneByte(text[i]) && forall k | i < k < separator :: IsSchemeChar(text[k])
  }

  ghost predicate HasUnsliceableUrl(text: string) {
    exists separator: nat :: BeginsUrl(text, separator) && SchemeFollowsWideChar(text, separator)
  }

  /** The program panics exactly on texts in which the scheme of some URL follows, without any character
      between, one that takes more than one byte in UTF-8. */
  lemma {:induction false} PanicsExactly(text: string)
    ensures Redacted(text).None? <==> HasUnsliceableUrl(text)
    decreases |text|
  {
    hide SeparatorAt, EndsUrl, IsSchemeChar, FindSeparator, UrlEnd, SchemeStart, IsOneByte, SchemeFollowsWideChar,
      RedactUrl, Redacted;
    var separator := FindSeparator(text, 0);
    if separator == |text| {
      RedactedEnd(text);
    } else {
      var end := UrlEnd(text, separator + 3);
      RedactedStep(text, SchemeStart(text, separator), end);
      assert BeginsUrl(text, separator);
      SchemeStartShowsWideChar(text, separator);
      PanicsExactly(text[end..]);
      if later: nat :| BeginsUrl(text[end..], later) && SchemeFollowsWideChar(text[end..], later) {
        SeparatorInSuffix(text, end, later);
        UrlOfTheRest(text, end + later);
      }
    }
    if p: nat :| BeginsUrl(text, p) && SchemeFollowsWideChar(text, p) {
      if p != separator {
        LaterUrlIsInRest(text, p);
        UrlOfTheRest(text, p);
      }
    }
  }

  /** An accented letter right before a URL is enough. */
  lemma AccentBeforeUrlPanics()
    ensures Redacted("\U{E9}http://x").None?
  {
    var text := "\U{E9}http://x";
    hide EndsUrl, Redacted;
    PanicsExactly(text);
    assert SeparatorAt(text, 5) && forall earlier: nat | earlier < 5 :: text[earlier] != ':';
    assert BeginsUrl(text, 5);
    assert !IsOneByte(text[0]) && forall k | 0 < k < 5 :: IsSchemeChar(text[k]);
    assert SchemeFollowsWideChar(text, 5);
  }

  lemma SeparatorInside(text: string, p: nat)
    requires SeparatorAt(text, p)
    ensures p + 3 <= |text| && !EndsUrl(text[p])
  {
  }

  lemma LaterUrlIsInRest(text: string, p: nat)
    requires BeginsUrl(text, p) && p != FindSeparator(text, 0)
    ensures FindSeparator(text, 0) < |text| && UrlEnd(text, FindSeparator(text, 0) + 3) <= p < |text|
  {
    hide SeparatorAt, EndsUrl, FindSeparator, UrlEnd;
    var separator := FindSeparator(text, 0);
    assert p + 3 <= |text| by { SeparatorInside(text, p); }
    assert separator < p;
    var k :| separator + 3 <= k < p && EndsUrl(text[k]);
  }

  lemma SchemeStartShowsWideChar(text: string, separator: nat)
    requires separator <= |text|
    ensures SchemeFollowsWideChar(text, separator) <==>
            SchemeStart(text, separator) > 0 && !IsOneByte(text[SchemeStart(text, separator) - 1])
  {
    var start := SchemeStart(text, separator);
    if i :| 0 <= i < separator && !IsOneByte(text[i]) && forall k | i < k < separator :: IsSchemeChar(text[k]) {
      assert i == start - 1;
    }
  }

  /** Beyond the first candidate, the URLs of the text are those of the remaining text. */
  lemma UrlOfTheRest(text: string, p: nat)
    requires FindSeparator(text, 0) < |text|
    requires UrlEnd(text, FindSeparator(text, 0) + 3) <= p && SeparatorAt(text, p)
    ensures var end := UrlEnd(text, FindSeparator(text, 0) + 3);
      && (BeginsUrl(text, p) <==> BeginsUrl(text[end..], p - end))
      && (SchemeFollowsWideChar(text, p) <==> SchemeFollowsWideChar(text[end..], p - end))
  {
    hide SeparatorAt, EndsUrl, IsSchemeChar, FindSeparator, UrlEnd, SchemeStart, BeginsUrl, SchemeFollowsWideChar,
      IsOneByte;
    var separator := FindSeparator(text, 0);
    var end := UrlEnd(text, separator + 3);
    SeparatorInside(text, p);
    if BeginsUrl(text, p) {
      BeginsInRest(text, end, p);
    }
    if BeginsUrl(text[end..], p - end) {
      BeginsInText(text, separator, p);
    }
    SchemeStartShowsWideChar(text, p);
    SchemeStartShowsWideChar(text[end..], p - end);
    TerminatorIsNoSchemeChar(text[end]);
    SchemeStartShift(text, end, p);
  }

  lemma TerminatorIsNoSchemeChar(c: char)
    requires EndsUrl(c)
    ensures !IsSchemeChar(c) && c != ':' && c != '/'
  {
  }

  lemma {:induction false} SchemeStartShift(text: string, end: nat, p: nat)
    requires end < p <= |text| && !IsSchemeChar(text[end])
    ensures SchemeStart(text, p) == end + SchemeStart(text[end..], p - end)
    ensures SchemeStart(text, p) > end
  {
    hide IsSchemeChar;
    if end + 1 < p {
      SchemeStartShift(text, end, p - 1);
    }
  }

  lemma BeginsInRest(text: string, end: nat, p: nat)
    requires end <= p <= |text| && BeginsUrl(text, p)
    ensures BeginsUrl(text[end..], p - end)
  {
    hide EndsUrl, SeparatorAt;
    var rest := text[end..];
    SeparatorInSuffix(text, end, p - end);
    forall earlier: nat | earlier < p - end && SeparatorAt(rest, earlier)
      ensures exists k :: earlier + 3 <= k < p - end && EndsUrl(rest[k])
    {
      SeparatorInSuffix(text, end, earlier);
      var k :| end + earlier + 3 <= k < p && EndsUrl(text[k]);
      assert rest[k - end] == text[k];
    }
  }

  /** No separator reaches over the character that ends a URL. */
  lemma SeparatorStopsBefore(text: string, earlier: nat, end: nat)
    requires SeparatorAt(text, earlier) && earlier < end < |text| && EndsUrl(text[end])
    ensures earlier + 3 <= end
  {
    hide EndsUrl;
    TerminatorIsNoSchemeChar(text[end]);
  }

  lemma BeginsInText(text: string, separator: nat, p: nat)
    requires separator == FindSeparator(text, 0) && separator < |text|
    requires UrlEnd(text, separator + 3) <= p < |text|
    requires BeginsUrl(text[UrlEnd(text, separator + 3)..], p - UrlEnd(text, separator + 3))
    ensures BeginsUrl(text, p)
  {
    hide EndsUrl, SeparatorAt, FindSeparator, UrlEnd;
    var end := UrlEnd(text, separator + 3);
    var rest := text[end..];
    SeparatorInSuffix(text, end, p - end);
    assert end < p by {
      if end == p {
        SeparatorInside(text, p);
      }
    }
    forall earlier: nat | earlier < p && SeparatorAt(text, earlier)
      ensures exists k :: earlier + 3 <= k < p && EndsUrl(text[k])
    {
      if earlier >= end {
        SeparatorInSuffix(text, end, earlier - end);
        var k :| earlier - end + 3 <= k < p - end && EndsUrl(rest[k]);
        assert text[k + end] == rest[k];
      } else {
        SeparatorStopsBefore(text, earlier, end);
        assert EndsUrl(text[end]);
      }
    }
  }
}
