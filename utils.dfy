/** The client's utility functions: text truncation and capitalisation,
    initials, username and password checks, message grouping, mention
    extraction, file-type tests, `uniqueBy`, `groupBy`, error-message
    selection and relative time (with the current time passed in). */
module Utils {
  import opened Wrappers
  import opened Text
  import opened ClientModel
  import Seqs

  /** A JavaScript string value that may be `null`/`undefined`; `""` is falsy too. */
  predicate Truthy(s: Option<string>) {
    s.Some? && s.value != ""
  }

  // ---------------------------------------------------------------- strings

  /** The `maxLength` `truncateText` uses when none is given. */
  const DefaultMaxLength: int := 50

  /** `truncateText(text, maxLength)`. `substring(0, n)` treats a negative `n` as 0. */
  function TruncateText(text: Option<string>, maxLength: int): (r: string)
    ensures !Truthy(text) ==> r == ""
    ensures Truthy(text) && |text.value| <= maxLength ==> r == text.value
    ensures Truthy(text) && |text.value| > maxLength ==>
      && |r| >= 3 && r[|r| - 3..] == "..."
      && r[..|r| - 3] == Trim(text.value[..if maxLength < 0 then 0 else maxLength])
  {
    if !Truthy(text) then ""
    else if |text.value| <= maxLength then text.value
    else Trim(text.value[..if maxLength < 0 then 0 else maxLength]) + "..."
  }

  /** `text[i..j]` is what remains of the first `n` characters after cutting
      whitespace from both ends. */
  predicate TrimmedSlice(text: string, n: nat, i: int, j: int) {
    0 <= i <= j <= n <= |text| && AllWhitespace(text[..i]) && AllWhitespace(text[j..n])
  }

  /** A truncated text is a whitespace-free-at-both-ends piece of the first
      `maxLength` characters, followed by `...`; so it is at most
      `maxLength + 3` long. */
  lemma TruncatedIsTrimmedPrefix(text: string, maxLength: nat)
    requires text != "" && |text| > maxLength
    ensures |TruncateText(Some(text), maxLength)| <= maxLength + 3
    ensures exists i, j :: TrimmedSlice(text, maxLength, i, j) && TruncateText(Some(text), maxLength) == text[i..j] + "..."
  {
    var p := text[..maxLength];
    TrimIsCore(p);
    var i, j :| 0 <= i <= j <= |p| && Trim(p) == p[i..j] && AllWhitespace(p[..i]) && AllWhitespace(p[j..]);
    assert p[i..j] == text[i..j];
    assert p[..i] == text[..i];
    assert p[j..] == text[j..maxLength];
    assert TrimmedSlice(text, maxLength, i, j);
  }

  /** `capitalizeFirst`: the first character upper-cased, the rest unchanged. */
  function CapitalizeFirst(str: Option<string>): (r: string)
    ensures !Truthy(str) ==> r == ""
    ensures Truthy(str) ==>
      |r| == |str.value| && r[0] == UpperChar(str.value[0]) && r[1..] == str.value[1..]
  {
    if !Truthy(str) then "" else [UpperChar(str.value[0])] + str.value[1..]
  }

  /** `word.charAt(0)` for every piece of `name.split(' ')`, joined. */
  function FirstChars(words: seq<string>): string {
    if words == [] then "" else (if words[0] == "" then "" else [words[0][0]]) + FirstChars(words[1..])
  }

  /** `generateInitials`. */
  function GenerateInitials(name: Option<string>): (r: string)
    ensures !Truthy(name) ==> r == "?"
    ensures |r| <= 2
  {
    if !Truthy(name) then "?"
    else
      var all := Upper(FirstChars(Split(name.value, ' ')));
      if |all| <= 2 then all else all[..2]
  }

  /** The characters that start a word: non-space characters at the start
      or right after a space, read left to right. */
  function WordStartChars(s: string, afterSpace: bool): string {
    if s == [] then ""
    else (if afterSpace && s[0] != ' ' then [s[0]] else "") + WordStartChars(s[1..], s[0] == ' ')
  }

  lemma {:induction false} WordStartCharsInWord(w: string, rest: string, afterSpace: bool)
    requires ' ' !in w
    ensures WordStartChars(w + rest, afterSpace) ==
      (if afterSpace && w != "" then [w[0]] else "") + WordStartChars(rest, if w == "" then afterSpace else false)
  {
    if w != "" {
      assert (w + rest)[1..] == w[1..] + rest;
      assert w[0] != ' ' by { assert w[0] in w; }
      WordStartCharsInWord(w[1..], rest, false);
    } else {
      assert w + rest == rest;
    }
  }

  /** Splitting on spaces and taking each piece's first character yields
      exactly the word-start characters. */
  lemma {:induction false} FirstCharsOfSplit(s: string, afterSpace: bool)
    requires afterSpace
    ensures FirstChars(Split(s, ' ')) == WordStartChars(s, afterSpace)
    decreases |s|
  {
    if ' ' !in s {
      assert Split(s, ' ') == [s];
      WordStartCharsInWord(s, "", true);
      assert s + "" == s;
      assert FirstChars([s]) == (if s == "" then "" else [s[0]]) + FirstChars([]);
    } else {
      var i := FirstIndex(s, ' ');
      var w := s[..i];
      var rest := s[i + 1..];
      var tail := Split(rest, ' ');
      assert Split(s, ' ') == [w] + tail;
      assert ([w] + tail)[1..] == tail;
      FirstCharsOfSplit(rest, true);
      WordStartsAcrossSpace(s, i);
    }
  }

  /** The word starts of `s` are those of its first word, then those after
      the space at `i`. */
  lemma WordStartsAcrossSpace(s: string, i: nat)
    requires i < |s| && s[i] == ' ' && ' ' !in s[..i]
    ensures WordStartChars(s, true) == (if i == 0 then "" else [s[0]]) + WordStartChars(s[i + 1..], true)
  {
    var w := s[..i];
    var after := s[i..];
    assert s == w + after;
    assert after[0] == ' ' && after[1..] == s[i + 1..];
    assert WordStartChars(after, w == "") == WordStartChars(s[i + 1..], true);
    WordStartCharsInWord(w, after, true);
    assert w != "" ==> w[0] == s[0];
  }

  /** The initials are the first two word-start characters, upper-cased. */
  lemma InitialsAreWordStarts(name: string)
    requires name != ""
    ensures var starts := WordStartChars(name, true);
      GenerateInitials(Some(name)) == Upper(if |starts| <= 2 then starts else starts[..2])
  {
    FirstCharsOfSplit(name, true);
    var starts := WordStartChars(name, true);
    if |starts| > 2 {
      assert Upper(starts)[..2] == Upper(starts[..2]);
    }
  }

  // ------------------------------------------------------------- validation

  /** End of the maximal run of `\w` characters starting at `i`. */
  function RunEnd(s: string, i: nat): (e: nat)
    requires i <= |s|
    ensures i <= e <= |s|
    ensures forall k :: i <= k < e ==> IsWordChar(s[k])
    ensures e < |s| ==> !IsWordChar(s[e])
    decreases |s| - i
  {
    if i < |s| && IsWordChar(s[i]) then RunEnd(s, i + 1) else i
  }

  /** `/^[a-zA-Z0-9_]{min,max}$/.test(s)`: the run of `\w` from the start
      covers the whole string and its length is within the bounds. */
  predicate MatchesWordClass(s: string, min: nat, max: nat) {
    RunEnd(s, 0) == |s| && min <= |s| <= max
  }

  predicate AllWordChars(s: string) {
    forall k :: 0 <= k < |s| ==> IsWordChar(s[k])
  }

  lemma WordClassIff(s: string, min: nat, max: nat)
    ensures MatchesWordClass(s, min, max) <==> AllWordChars(s) && min <= |s| <= max
  {
  }

  datatype UsernameCheck = UsernameCheck(isValid: bool, minLength: bool, maxLength: bool, validChars: bool)

  /** `validateUsername`. */
  function ValidateUsername(username: string): (r: UsernameCheck)
    ensures r.minLength == (|username| >= 3) && r.maxLength == (|username| <= 20)
  {
    UsernameCheck(MatchesWordClass(username, 3, 20), |username| >= 3, |username| <= 20,
                  MatchesWordClass(username, 1, |username|))
  }

  /** A username is valid exactly when it has 3 to 20 characters, all of
      them letters, digits or `_`; and that is the conjunction of the three
      partial checks. */
  lemma UsernameValidIff(username: string)
    ensures var r := ValidateUsername(username);
      && (r.isValid <==> 3 <= |username| <= 20 && AllWordChars(username))
      && (r.validChars <==> |username| >= 1 && AllWordChars(username))
      && r.isValid == (r.minLength && r.maxLength && r.validChars)
  {
    WordClassIff(username, 3, 20);
    WordClassIff(username, 1, |username|);
  }

  predicate HasChar(s: string, p: char -> bool) {
    exists k :: 0 <= k < |s| && p(s[k])
  }

  /** The characters of `/[!@#$%^&*(),.?":{}|<>]/`. */
  predicate IsSpecialChar(c: char) {
    c in "!@#$%^&*(),.?\":{}|<>"
  }

  datatype PasswordCheck = PasswordCheck(
    isValid: bool, minLength: bool, hasUpperCase: bool, hasLowerCase: bool,
    hasNumbers: bool, hasSpecialChar: bool)

  /** `validatePassword`: only the length decides validity. */
  function ValidatePassword(password: string): (r: PasswordCheck)
    ensures r.isValid == r.minLength == (|password| >= 6)
    ensures r.hasUpperCase <==> exists k :: 0 <= k < |password| && 'A' <= password[k] <= 'Z'
    ensures r.hasLowerCase <==> exists k :: 0 <= k < |password| && 'a' <= password[k] <= 'z'
    ensures r.hasNumbers <==> exists k :: 0 <= k < |password| && '0' <= password[k] <= '9'
    ensures r.hasSpecialChar <==> exists k :: 0 <= k < |password| && password[k] in "!@#$%^&*(),.?\":{}|<>"
  {
    PasswordCheck(|password| >= 6, |password| >= 6, HasChar(password, IsUpperAscii),
                  HasChar(password, IsLowerAscii), HasChar(password, IsDigit),
                  HasChar(password, IsSpecialChar))
  }

  // --------------------------------------------------------------- messages

  /** `shouldGroupMessages(current, prev, threshold)`; `createdAt` is in ms. */
  function ShouldGroupMessages(current: Option<ChatMessage>, prev: Option<ChatMessage>, threshold: int): (r: bool)
    ensures r <==> current.Some? && prev.Some? && current.value.userId == prev.value.userId
                   && current.value.createdAt - prev.value.createdAt < threshold
  {
    if prev.None? || current.None? then false
    else current.value.userId == prev.value.userId && current.value.createdAt - prev.value.createdAt < threshold
  }

  /** Mentions found by `/@(\w+)/g` from position `i` on: at each position,
      an `@` followed by a word character matches and the scan resumes after
      the run; otherwise the scan moves one character on. */
  function ScanMentions(s: string, i: nat): seq<string>
    requires i <= |s|
    decreases |s| - i
  {
    if i == |s| then []
    else if s[i] == '@' && i + 1 < |s| && IsWordChar(s[i + 1]) then
      [s[i + 1..RunEnd(s, i + 1)]] + ScanMentions(s, RunEnd(s, i + 1))
    else ScanMentions(s, i + 1)
  }

  /** The mention an `@` at position `k` introduces, if any. */
  function MentionAt(s: string, k: nat): seq<string>
    requires k < |s|
  {
    if s[k] == '@' && k + 1 < |s| && IsWordChar(s[k + 1]) then [s[k + 1..RunEnd(s, k + 1)]] else []
  }

  /** One mention per `@` that is directly followed by a word character, in
      order of position. */
  function AtSignMentions(s: string, i: nat): seq<string>
    requires i <= |s|
    decreases |s| - i
  {
    if i == |s| then [] else MentionAt(s, i) + AtSignMentions(s, i + 1)
  }

  lemma {:induction false} NoMentionsInsideRun(s: string, i: nat, e: nat)
    requires i <= e <= |s| && forall k :: i <= k < e ==> IsWordChar(s[k])
    ensures AtSignMentions(s, i) == AtSignMentions(s, e)
    decreases e - i
  {
    if i < e {
      assert MentionAt(s, i) == [];
      NoMentionsInsideRun(s, i + 1, e);
    }
  }

  /** The regular-expression scan finds exactly one mention per `@` that is
      followed by a word character: a match never hides a later `@`, since
      `@` is not a word character. */
  lemma {:induction false} ScanFindsEveryAtSign(s: string, i: nat)
    requires i <= |s|
    ensures ScanMentions(s, i) == AtSignMentions(s, i)
    decreases |s| - i
  {
    if i < |s| {
      if s[i] == '@' && i + 1 < |s| && IsWordChar(s[i + 1]) {
        var e := RunEnd(s, i + 1);
        ScanFindsEveryAtSign(s, e);
        NoMentionsInsideRun(s, i + 1, e);
      } else {
        ScanFindsEveryAtSign(s, i + 1);
      }
    }
  }

  /** Every mention is a non-empty run of word characters. */
  lemma {:induction false} MentionsAreWords(s: string, i: nat)
    requires i <= |s|
    ensures forall m :: m in ScanMentions(s, i) ==> m != "" && AllWordChars(m)
    decreases |s| - i
  {
    if i < |s| {
      if s[i] == '@' && i + 1 < |s| && IsWordChar(s[i + 1]) {
        MentionsAreWords(s, RunEnd(s, i + 1));
      } else {
        MentionsAreWords(s, i + 1);
      }
    }
  }

  /** `detectMentions`: the `exec` loop of `/@(\w+)/g`. */
  method DetectMentions(content: Option<string>) returns (mentions: seq<string>)
    ensures !Truthy(content) ==> mentions == []
    ensures Truthy(content) ==> mentions == ScanMentions(content.value, 0)
  {
    mentions := [];
    if !Truthy(content) {
      return;
    }
    var s := content.value;
    var i := 0;
    while i < |s|
      invariant 0 <= i <= |s|
      invariant mentions + ScanMentions(s, i) == ScanMentions(s, 0)
      decreases |s| - i
    {
      if s[i] == '@' && i + 1 < |s| && IsWordChar(s[i + 1]) {
        var j := i + 1;
        while j < |s| && IsWordChar(s[j])
          invariant i + 1 <= j <= |s|
          invariant RunEnd(s, j) == RunEnd(s, i + 1)
          decreases |s| - j
        {
          j := j + 1;
        }
        mentions := mentions + [s[i + 1..j]];
        i := j;
      } else {
        i := i + 1;
      }
    }
  }

  // ------------------------------------------------------------------ files

  /** The last piece of a split. */
  function LastPiece(pieces: seq<string>): string
    requires |pieces| >= 1
  {
    pieces[|pieces| - 1]
  }

  /** Position `k` starts the text after the last `c` of `s`. */
  predicate AfterLast(s: string, c: char, k: int) {
    0 <= k <= |s| && c !in s[k..] && (k == 0 || s[k - 1] == c)
  }

  /** The last piece of `s.split(c)` is the text after the last `c` (all of
      `s` when there is none). */
  lemma {:induction false} LastPieceIsSuffix(s: string, c: char)
    ensures exists k :: AfterLast(s, c, k) && LastPiece(Split(s, c)) == s[k..]
    decreases |s|
  {
    if c !in s {
      assert s[0..] == s;
    } else {
      var i := FirstIndex(s, c);
      var rest := s[i + 1..];
      LastPieceIsSuffix(rest, c);
      var k :| AfterLast(rest, c, k) && LastPiece(Split(rest, c)) == rest[k..];
      LastPieceAfterFirst(s, c);
      AfterLastShift(s, c, i, k);
    }
  }

  /** Past the first `c`, the split has the same last piece. */
  lemma LastPieceAfterFirst(s: string, c: char)
    requires c in s
    ensures LastPiece(Split(s, c)) == LastPiece(Split(s[FirstIndex(s, c) + 1..], c))
  {
    var tail := Split(s[FirstIndex(s, c) + 1..], c);
    var pieces := [s[..FirstIndex(s, c)]] + tail;
    assert Split(s, c) == pieces;
    assert pieces[|pieces| - 1] == tail[|tail| - 1];
  }

  /** The last `c` of the text after position `i` is the last `c` of `s`. */
  lemma AfterLastShift(s: string, c: char, i: nat, k: int)
    requires i < |s| && s[i] == c && AfterLast(s[i + 1..], c, k)
    ensures AfterLast(s, c, i + 1 + k) && s[i + 1..][k..] == s[i + 1 + k..]
  {
    var rest := s[i + 1..];
    assert rest[k..] == s[i + 1 + k..];
    assert k > 0 ==> s[i + k] == rest[k - 1];
  }

  /** `getFileExtension`: the lower-cased text after the last `.`. */
  function GetFileExtension(filename: Option<string>): (r: string)
    ensures !Truthy(filename) ==> r == ""
    ensures Truthy(filename) ==> exists k :: AfterLast(filename.value, '.', k) && r == Lower(filename.value[k..])
  {
    if !Truthy(filename) then ""
    else
      LastPieceIsSuffix(filename.value, '.');
      Lower(LastPiece(Split(filename.value, '.')))
  }

  const ImageExtensions: seq<string> := ["jpg", "jpeg", "png", "gif", "webp", "svg", "bmp"]
  const VideoExtensions: seq<string> := ["mp4", "avi", "mov", "wmv", "flv", "webm", "mkv"]
  const AudioExtensions: seq<string> := ["mp3", "wav", "ogg", "flac", "aac", "m4a"]

  function IsImageFile(filename: Option<string>): (r: bool)
    ensures r <==> Truthy(filename) && GetFileExtension(filename) in ImageExtensions
  {
    Truthy(filename) && GetFileExtension(filename) in ImageExtensions
  }

  function IsVideoFile(filename: Option<string>): (r: bool)
    ensures r <==> Truthy(filename) && GetFileExtension(filename) in VideoExtensions
  {
    Truthy(filename) && GetFileExtension(filename) in VideoExtensions
  }

  function IsAudioFile(filename: Option<string>): (r: bool)
    ensures r <==> Truthy(filename) && GetFileExtension(filename) in AudioExtensions
  {
    Truthy(filename) && GetFileExtension(filename) in AudioExtensions
  }

  lemma ListsDisjoint(a: seq<string>, b: seq<string>)
    requires forall i, j :: 0 <= i < |a| && 0 <= j < |b| ==> a[i] != b[j]
    ensures forall e :: e in a ==> e !in b
  {
  }

  /** The three lists share no extension, so a file name is of at most one kind. */
  lemma FileKindsExclusive(filename: Option<string>)
    ensures !(IsImageFile(filename) && IsVideoFile(filename))
    ensures !(IsImageFile(filename) && IsAudioFile(filename))
    ensures !(IsVideoFile(filename) && IsAudioFile(filename))
  {
    ListsDisjoint(ImageExtensions, VideoExtensions);
    ListsDisjoint(ImageExtensions, AudioExtensions);
    ListsDisjoint(VideoExtensions, AudioExtensions);
  }

  // ----------------------------------------------------------------- arrays

  ghost function KeysOf<T, K>(xs: seq<T>, key: T -> K): set<K> {
    set i | 0 <= i < |xs| :: key(xs[i])
  }

  /** The items whose key no earlier item has, in input order. */
  ghost function FirstOfEachKey<T, K>(xs: seq<T>, key: T -> K): seq<T>
    decreases |xs|
  {
    if xs == [] then []
    else
      var init := xs[..|xs| - 1];
      FirstOfEachKey(init, key) + (if key(xs[|xs| - 1]) in KeysOf(init, key) then [] else [xs[|xs| - 1]])
  }

  lemma KeysOfSnoc<T, K>(xs: seq<T>, x: T, key: T -> K)
    ensures KeysOf(xs + [x], key) == KeysOf(xs, key) + {key(x)}
  {
    var l := KeysOf(xs + [x], key);
    forall v | v in KeysOf(xs, key) ensures v in l {
      var i :| 0 <= i < |xs| && key(xs[i]) == v;
      assert (xs + [x])[i] == xs[i];
    }
    assert (xs + [x])[|xs|] == x;
  }

  /** `uniqueBy(array, key)` with a key function. */
  method UniqueBy<T, K(==)>(xs: seq<T>, key: T -> K) returns (r: seq<T>)
    ensures r == FirstOfEachKey(xs, key)
  {
    var seen: set<K> := {};
    r := [];
    var i := 0;
    while i < |xs|
      invariant 0 <= i <= |xs|
      invariant seen == KeysOf(xs[..i], key)
      invariant r == FirstOfEachKey(xs[..i], key)
    {
      assert xs[..i + 1][..i] == xs[..i];
      assert xs[..i + 1] == xs[..i] + [xs[i]];
      KeysOfSnoc(xs[..i], xs[i], key);
      var v := key(xs[i]);
      if v !in seen {
        seen := seen + {v};
        r := r + [xs[i]];
      }
      i := i + 1;
    }
    assert xs[..|xs|] == xs;
  }

  /** No two kept items share a key, every key of the input is kept, and the
      result is a subsequence of the input. */
  lemma {:induction false} FirstOfEachKeyProperties<T, K>(xs: seq<T>, key: T -> K)
    ensures var r := FirstOfEachKey(xs, key);
      && (forall i, j :: 0 <= i < j < |r| ==> key(r[i]) != key(r[j]))
      && KeysOf(r, key) == KeysOf(xs, key)
      && Seqs.IsSubsequence(r, xs)
    decreases |xs|
  {
    if xs != [] {
      var init := xs[..|xs| - 1];
      var x := xs[|xs| - 1];
      FirstOfEachKeyProperties(init, key);
      var p := FirstOfEachKey(init, key);
      assert xs == init + [x];
      KeysOfSnoc(init, x, key);
      if key(x) !in KeysOf(init, key) {
        KeysOfSnoc(p, x, key);
        var r := p + [x];
        forall i, j | 0 <= i < j < |r| ensures key(r[i]) != key(r[j]) {
          if j == |p| {
            assert key(r[i]) in KeysOf(p, key) by { assert r[i] == p[i]; }
          } else {
            assert r[i] == p[i] && r[j] == p[j];
          }
        }
      }
      SubsequenceSnoc(p, init, x, key(x) !in KeysOf(init, key));
      assert p + [] == p;
    }
  }

  lemma {:induction false} SubsequenceSnoc<T>(a: seq<T>, b: seq<T>, x: T, keep: bool)
    requires Seqs.IsSubsequence(a, b)
    ensures Seqs.IsSubsequence(a + (if keep then [x] else []), b + [x])
    decreases |b|
  {
    if a == [] {
      if keep {
        SingletonSubsequence(b, x);
        assert a + [x] == [x];
      }
    } else {
      assert |b| > 0;
      var a' := a + (if keep then [x] else []);
      assert (b + [x])[1..] == b[1..] + [x];
      assert a'[0] == a[0];
      if a[0] == b[0] {
        SubsequenceSnoc(a[1..], b[1..], x, keep);
        assert a'[1..] == a[1..] + (if keep then [x] else []);
      } else {
        SubsequenceSnoc(a, b[1..], x, keep);
      }
    }
  }

  lemma {:induction false} SingletonSubsequence<T>(b: seq<T>, x: T)
    ensures Seqs.IsSubsequence([x], b + [x])
    decreases |b|
  {
    if b != [] {
      assert (b + [x])[1..] == b[1..] + [x];
      SingletonSubsequence(b[1..], x);
      if x == b[0] {
        assert Seqs.IsSubsequence([x][1..], (b + [x])[1..]);
      }
    }
  }

  /** The groups `groupBy` builds: for each key of the input, its items in input order. */
  ghost function Groups<T, K>(xs: seq<T>, key: T -> K): map<K, seq<T>> {
    map k | k in KeysOf(xs, key) :: Seqs.Filter(xs, (x: T) => key(x) == k)
  }

  lemma GroupsSnoc<T, K>(xs: seq<T>, x: T, key: T -> K)
    ensures var g := Groups(xs, key);
      Groups(xs + [x], key) == g[key(x) := (if key(x) in g then g[key(x)] else []) + [x]]
  {
    var g := Groups(xs, key);
    var v := key(x);
    var lhs := Groups(xs + [x], key);
    var rhs := g[v := (if v in g then g[v] else []) + [x]];
    KeysOfSnoc(xs, x, key);
    forall k | k in lhs ensures lhs[k] == rhs[k] {
      var p := (y: T) => key(y) == k;
      Seqs.FilterAppend(xs, [x], p);
      assert Seqs.Filter([x], p) == if p(x) then [x] else [];
      if k == v && v !in g {
        forall i | 0 <= i < |xs| ensures !p(xs[i]) {
          assert key(xs[i]) in KeysOf(xs, key);
        }
        Seqs.FilterDropsAll(xs, p);
      }
    }
    assert lhs.Keys == rhs.Keys;
  }

  /** `groupBy(array, key)` with a key function. */
  method GroupBy<T, K(==)>(xs: seq<T>, key: T -> K) returns (groups: map<K, seq<T>>)
    ensures groups == Groups(xs, key)
  {
    groups := map[];
    var i := 0;
    while i < |xs|
      invariant 0 <= i <= |xs|
      invariant groups == Groups(xs[..i], key)
    {
      assert xs[..i + 1] == xs[..i] + [xs[i]];
      GroupsSnoc(xs[..i], xs[i], key);
      var v := key(xs[i]);
      groups := groups[v := (if v in groups then groups[v] else []) + [xs[i]]];
      i := i + 1;
    }
    assert xs[..|xs|] == xs;
  }

  /** Each item sits in the group of its own key, and nowhere else; each
      group keeps the input order. */
  lemma GroupsPartition<T, K>(xs: seq<T>, key: T -> K, i: nat, k: K, y: T)
    requires i < |xs|
    ensures key(xs[i]) in Groups(xs, key) && xs[i] in Groups(xs, key)[key(xs[i])]
    ensures k in Groups(xs, key) && y in Groups(xs, key)[k] ==> key(y) == k && y in xs
    ensures k in Groups(xs, key) ==> Seqs.IsSubsequence(Groups(xs, key)[k], xs)
  {
    assert key(xs[i]) in KeysOf(xs, key);
    Seqs.FilterMembers(xs, (x: T) => key(x) == key(xs[i]));
    Seqs.FilterMembers(xs, (x: T) => key(x) == k);
    Seqs.FilterIsSubsequence(xs, (x: T) => key(x) == k);
  }

  // ----------------------------------------------------------------- errors

  datatype ResponseData = ResponseData(message: Option<string>, errors: Option<seq<string>>)
  datatype HttpResponse = HttpResponse(status: Option<int>, data: Option<ResponseData>)

  /** A thrown value: absent (`null`/`undefined`), a string, or an object
      with optional `code`, `message` and `response`. */
  datatype JsError =
    | NoError
    | StringError(text: string)
    | ErrorObject(code: Option<string>, message: Option<string>, response: Option<HttpResponse>)

  /** `error?.response?.data?.message`. */
  function ResponseMessage(e: JsError): Option<string> {
    if e.ErrorObject? && e.response.Some? && e.response.value.data.Some? then e.response.value.data.value.message
    else None
  }

  const UnexpectedError: string := "An unexpected error occurred"

  /** `getErrorMessage`: a string is its own message; then the response's
      message, then the error's own message, then a fixed text. */
  function GetErrorMessage(e: JsError): (r: string)
    ensures e.StringError? ==> r == e.text
    ensures !e.StringError? && Truthy(ResponseMessage(e)) ==> r == ResponseMessage(e).value
    ensures e.ErrorObject? && !Truthy(ResponseMessage(e)) && Truthy(e.message) ==> r == e.message.value
    ensures !e.StringError? && !Truthy(ResponseMessage(e)) && !(e.ErrorObject? && Truthy(e.message)) ==>
      r == UnexpectedError
  {
    match e
    case StringError(t) => t
    case NoError => UnexpectedError
    case ErrorObject(_, msg, _) =>
      if Truthy(ResponseMessage(e)) then ResponseMessage(e).value
      else if Truthy(msg) then msg.value
      else UnexpectedError
  }

  /** `isNetworkError`, with `navigator.onLine` as `online`. */
  function IsNetworkError(e: JsError, online: bool): (r: bool)
    ensures !online ==> r
    ensures r <==> !online || (e.ErrorObject? && (e.code == Some("NETWORK_ERROR") || e.message == Some("Network Error")))
  {
    (e.ErrorObject? && (e.code == Some("NETWORK_ERROR") || e.message == Some("Network Error"))) || !online
  }

  // ------------------------------------------------------------------- time

  /** `formatRelativeTime(date)` with the current time `now`, both in ms.
      `Math.floor` of a division by a positive constant is Dafny's `/`. */
  function FormatRelativeTime(date: Option<int>, now: int): (r: string)
    ensures date.None? ==> r == "Unknown"
    ensures date.Some? && now - date.value < 60000 ==> r == "Just now"
    ensures date.Some? && 60000 <= now - date.value < 3600000 ==>
      r == NatToString((now - date.value) / 60000) + "m ago" && 1 <= (now - date.value) / 60000 < 60
    ensures date.Some? && 3600000 <= now - date.value < 86400000 ==>
      r == NatToString((now - date.value) / 3600000) + "h ago" && 1 <= (now - date.value) / 3600000 < 24
    ensures date.Some? && 86400000 <= now - date.value < 7 * 86400000 ==>
      r == NatToString((now - date.value) / 86400000) + "d ago"
    ensures date.Some? && 7 * 86400000 <= now - date.value < 30 * 86400000 ==>
      r == NatToString((now - date.value) / 86400000 / 7) + "w ago" && 1 <= (now - date.value) / 86400000 / 7 <= 4
    ensures date.Some? && 30 * 86400000 <= now - date.value < 365 * 86400000 ==>
      r == NatToString((now - date.value) / 86400000 / 30) + "mo ago" && 1 <= (now - date.value) / 86400000 / 30 <= 12
    ensures date.Some? && now - date.value >= 365 * 86400000 ==>
      r == NatToString((now - date.value) / 86400000 / 365) + "y ago"
  {
    if date.None? then "Unknown"
    else
      var diff := now - date.value;
      var secs := diff / 1000;
      var mins := diff / 60000;
      var hours := diff / 3600000;
      var days := diff / 86400000;
      if secs < 60 then "Just now"
      else if mins < 60 then NatToString(mins) + "m ago"
      else if hours < 24 then NatToString(hours) + "h ago"
      else if days < 7 then NatToString(days) + "d ago"
      else if days < 30 then NatToString(days / 7) + "w ago"
      else if days < 365 then NatToString(days / 30) + "mo ago"
      else NatToString(days / 365) + "y ago"
  }
}
