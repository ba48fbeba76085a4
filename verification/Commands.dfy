/**
 * Phone-issued commands: normalised, checked, and given an identity made of their kind and
 * target, which is what removes duplicates.
 */
module Commands {
  import opened Options
  import opened Utf8
  import opened Canonical
  import opened Cuts

  const MAX_TARGET := 128
  const MAX_WORKSPACE := 200
  const MAX_PROMPT := 4096
  const SEP: byte := 58
  const AT: byte := 64

  // ----- trimming white space, in UTF-8

  /** The length of the white space character `s` starts with, 0 when there is none. */
  function SpaceLen(s: Bytes): (n: nat)
    ensures n <= |s| && n <= 3
  {
    if s == [] then 0
    else if 9 <= s[0] <= 13 || s[0] == 32 then 1
    else if |s| >= 2 && s[0] == 0xC2 && (s[1] == 0x85 || s[1] == 0xA0) then 2
    else if |s| >= 3 && (
        || (s[0] == 0xE1 && s[1] == 0x9A && s[2] == 0x80)
        || (s[0] == 0xE2 && s[1] == 0x80 && (s[2] <= 0x8A || s[2] == 0xA8 || s[2] == 0xA9 || s[2] == 0xAF) && s[2] >= 0x80)
        || (s[0] == 0xE2 && s[1] == 0x81 && s[2] == 0x9F)
        || (s[0] == 0xE3 && s[1] == 0x80 && s[2] == 0x80)) then 3
    else 0
  }

  /** Likewise for the character it ends with. */
  function EndSpaceLen(s: Bytes): (n: nat)
    ensures n <= |s| && n <= 3
  {
    if |s| >= 1 && SpaceLen(s[|s| - 1..]) == 1 then 1
    else if |s| >= 2 && SpaceLen(s[|s| - 2..]) == 2 then 2
    else if |s| >= 3 && SpaceLen(s[|s| - 3..]) == 3 then 3
    else 0
  }

  function TrimStart(s: Bytes): Bytes
    decreases |s|
  {
    if SpaceLen(s) == 0 then s else TrimStart(s[SpaceLen(s)..])
  }

  function TrimEnd(s: Bytes): Bytes
    decreases |s|
  {
    if EndSpaceLen(s) == 0 then s else TrimEnd(s[..|s| - EndSpaceLen(s)])
  }

  function Trim(s: Bytes): Bytes {
    TrimEnd(TrimStart(s))
  }

  predicate Trimmed(s: Bytes) {
    SpaceLen(s) == 0 && EndSpaceLen(s) == 0
  }

  lemma {:induction false} TrimStartTrims(s: Bytes)
    ensures SpaceLen(TrimStart(s)) == 0 && exists k :: 0 <= k <= |s| && TrimStart(s) == s[k..]
    decreases |s|
  {
    hide SpaceLen;
    var n := SpaceLen(s);
    if n > 0 {
      TrimStartTrims(s[n..]);
      var k :| 0 <= k <= |s[n..]| && TrimStart(s[n..]) == s[n..][k..];
      assert TrimStart(s) == s[n + k..];
    } else {
      assert s == s[0..];
    }
  }

  lemma {:induction false} TrimEndTrims(s: Bytes)
    ensures EndSpaceLen(TrimEnd(s)) == 0 && TrimEnd(s) <= s
    decreases |s|
  {
    hide EndSpaceLen;
    var n := EndSpaceLen(s);
    if n > 0 {
      TrimEndTrims(s[..|s| - n]);
    }
  }

  lemma SpaceOfPrefix(s: Bytes, t: Bytes)
    requires t <= s && SpaceLen(s) == 0
    ensures SpaceLen(t) == 0
  {
  }

  /** Unicode's white space: what a space is, said of characters. */
  predicate WhiteSpace(cp: nat) {
    || 9 <= cp <= 13 || cp == 32 || cp == 0x85 || cp == 0xA0 || cp == 0x1680 || 0x2000 <= cp <= 0x200A
    || cp == 0x2028 || cp == 0x2029 || cp == 0x202F || cp == 0x205F || cp == 0x3000
  }

  /** A string starts with a space exactly when it starts with a white space character's bytes. */
  lemma SpaceIffWhite(s: Bytes, n: nat)
    requires n > 0
    ensures SpaceLen(s) == n <==> exists cp: nat :: WhiteSpace(cp) && Rune(cp) <= s && |Rune(cp)| == n
  {
    if SpaceLen(s) == n {
      var cp := SpaceRead(s);
    }
    if cp: nat :| WhiteSpace(cp) && Rune(cp) <= s && |Rune(cp)| == n {
      WhiteIsSpace(cp, s);
    }
  }

  lemma WhiteIsSpace(cp: nat, s: Bytes)
    requires WhiteSpace(cp) && Rune(cp) <= s
    ensures SpaceLen(s) == |Rune(cp)|
  {
    var r := Rune(cp);
    assert forall i :: 0 <= i < |r| ==> s[i] == r[i];
  }

  lemma SpaceRead(s: Bytes) returns (cp: nat)
    requires SpaceLen(s) > 0
    ensures WhiteSpace(cp) && Rune(cp) == s[..SpaceLen(s)]
  {
    if SpaceLen(s) == 1 {
      cp := s[0];
    } else if SpaceLen(s) == 2 {
      cp := s[1];
    } else {
      var a: int, b: int, c: int := s[0], s[1], s[2];
      cp := 4096 * (a - 0xE0) + 64 * (b - 0x80) + (c - 0x80);
    }
  }

  /** Nothing but white space characters. */
  predicate Blank(s: Bytes)
    decreases |s|
  {
    s == [] || (SpaceLen(s) > 0 && Blank(s[SpaceLen(s)..]))
  }

  lemma SpaceExtends(s: Bytes, t: Bytes)
    requires SpaceLen(s) > 0
    ensures SpaceLen(s + t) == SpaceLen(s)
  {
  }

  lemma {:induction false} BlankJoins(s: Bytes, t: Bytes)
    requires Blank(s) && Blank(t)
    ensures Blank(s + t)
    decreases |s|
  {
    hide SpaceLen;
    if s == [] {
      assert s + t == t;
    } else {
      var n := SpaceLen(s);
      SpaceExtends(s, t);
      BlankJoins(s[n..], t);
      assert (s + t)[n..] == s[n..] + t;
    }
  }

  lemma {:induction false} StartIsBlank(s: Bytes)
    ensures exists b :: Blank(b) && s == b + TrimStart(s)
    decreases |s|
  {
    hide SpaceLen;
    var n := SpaceLen(s);
    if n == 0 {
      assert Blank([]) && s == [] + TrimStart(s);
    } else {
      StartIsBlank(s[n..]);
      var b :| Blank(b) && s[n..] == b + TrimStart(s[n..]);
      OneIsBlank(s);
      BlankJoins(s[..n], b);
      assert s == (s[..n] + b) + TrimStart(s);
    }
  }

  lemma OneIsBlank(s: Bytes)
    requires SpaceLen(s) > 0
    ensures SpaceLen(s[..SpaceLen(s)]) == SpaceLen(s) && Blank(s[..SpaceLen(s)])
  {
    var one := s[..SpaceLen(s)];
    assert one[SpaceLen(one)..] == [];
  }

  lemma {:induction false} EndIsBlank(s: Bytes)
    ensures exists b :: Blank(b) && s == TrimEnd(s) + b
    decreases |s|
  {
    hide SpaceLen, EndSpaceLen, Blank;
    var n := EndSpaceLen(s);
    if n == 0 {
      NothingIsBlank();
      assert s == TrimEnd(s) + [];
    } else {
      var rest, last := s[..|s| - n], s[|s| - n..];
      EndIsBlank(rest);
      var b :| Blank(b) && rest == TrimEnd(rest) + b;
      LastIsBlank(s);
      BlankJoins(b, last);
      EndsWith(s, TrimEnd(rest), b, last);
    }
  }

  lemma NothingIsBlank()
    ensures Blank([])
  {
  }

  lemma EndsWith(s: Bytes, front: Bytes, b: Bytes, last: Bytes)
    requires |last| <= |s| && s[..|s| - |last|] == front + b && s[|s| - |last|..] == last
    ensures s == front + (b + last)
  {
    assert s == s[..|s| - |last|] + last;
  }

  lemma LastIsBlank(s: Bytes)
    requires EndSpaceLen(s) > 0
    ensures Blank(s[|s| - EndSpaceLen(s)..])
  {
    hide SpaceLen, Blank;
    AllIsBlank(s[|s| - EndSpaceLen(s)..]);
  }

  lemma AllIsBlank(s: Bytes)
    requires SpaceLen(s) == |s|
    ensures Blank(s)
  {
    hide SpaceLen;
    assert s[|s|..] == [] && Blank([]);
  }

  /** Trimming takes white space from the two ends, and only that. */
  lemma TrimTakesBlanks(s: Bytes)
    ensures exists a, b :: Blank(a) && Blank(b) && s == a + Trim(s) + b
  {
    hide Blank, TrimStart, TrimEnd;
    StartIsBlank(s);
    EndIsBlank(TrimStart(s));
    var a :| Blank(a) && s == a + TrimStart(s);
    var b :| Blank(b) && TrimStart(s) == Trim(s) + b;
    assert s == a + Trim(s) + b;
  }

  /** Trimming leaves no space at either end, and so again nothing to trim. */
  lemma TrimTrims(s: Bytes)
    ensures Trimmed(Trim(s)) && Trim(Trim(s)) == Trim(s)
    ensures Trimmed(s) ==> Trim(s) == s
  {
    TrimStartTrims(s);
    TrimEndTrims(TrimStart(s));
    SpaceOfPrefix(TrimStart(s), Trim(s));
  }

  // ----- the eight-digit hash

  // Exclusive or of the bits.
  function Xor(x: U64, y: U64): U64 {
    ((x as bv64) ^ (y as bv64)) as U64
  }

  function Mix(h: U64, b: byte): U64 {
    Xor(h, b) * 1099511628211 % WORD
  }

  function Fnv(s: Bytes): U64 {
    if s == [] then 14695981039346656037 else Mix(Fnv(s[..|s| - 1]), s[|s| - 1])
  }

  // The last digits of a number in hexadecimal.
  function HexDigits(v: nat, digits: nat): (h: Bytes)
    ensures |h| == digits && SEP !in h
  {
    if digits == 0 then [] else HexDigits(v / 16, digits - 1) + [HexDigit(v % 16)]
  }

  // The low half with the high half folded in.
  function Fold(h: U64): U64 {
    Xor(h % 0x1_0000_0000, h / 0x1_0000_0000)
  }

  /** Eight hex digits of the hash's two halves folded together. */
  function Hash(s: Bytes): (h: Bytes)
    ensures |h| == 8 && SEP !in h
  {
    HexDigits(Fold(Fnv(s)), 8)
  }

  method Fnv8(s: Bytes) returns (h: Bytes)
    ensures h == Hash(s)
  {
    hide HexDigits, Xor;
    var v: U64 := 14695981039346656037;
    for i := 0 to |s|
      invariant v == Fnv(s[..i])
    {
      assert s[..i + 1][..i] == s[..i];
      v := Xor(v, s[i]);
      v := v * 1099511628211 % WORD;
    }
    assert s[..|s|] == s;
    h := HexDigits(Xor(v % 0x1_0000_0000, v / 0x1_0000_0000), 8);
  }

  lemma XorIs(x: U64, y: U64)
    ensures Xor(x, y) == ((x as bv64) ^ (y as bv64)) as U64
  {
  }

  /** FNV-1a over 64 bits (`XorIs`), byte after byte. */
  lemma FnvIs(s: Bytes, b: byte)
    ensures Fnv([]) == 14695981039346656037
    ensures Fnv(s + [b]) == Xor(Fnv(s), b) * 1099511628211 % WORD
  {
    hide Xor;
    var t := s + [b];
    assert t[..|t| - 1] == s;
  }

  function Shifted(v: nat, k: nat): nat {
    if k == 0 then v else Shifted(v / 16, k - 1)
  }

  lemma {:induction false} HexDigitsAt(v: nat, digits: nat, k: nat)
    requires k < digits
    ensures HexDigits(v, digits)[digits - 1 - k] == HexDigit(Shifted(v, k) % 16)
  {
    if k > 0 {
      HexDigitsAt(v / 16, digits - 1, k - 1);
    }
  }

  /** Eight digits, the k-th from the right of weight 16^k in the low half with the high one folded in. */
  lemma HashSpells(s: Bytes, k: nat)
    requires k < 8
    ensures |Hash(s)| == 8
    ensures Hash(s)[7 - k] == HexDigit(Shifted(Xor(Fnv(s) % 0x1_0000_0000, Fnv(s) / 0x1_0000_0000), k) % 16)
  {
    hide Fnv, Xor, HexDigits, Shifted, HexDigit;
    HexDigitsAt(Fold(Fnv(s)), 8, k);
  }

  // ----- commands

  datatype Command = Command(id: Bytes, kind: Bytes, sessionID: Bytes, workspace: Bytes, prompt: Bytes, at: int)

  const COMPACT := Text("compact")
  const RESUME := Text("resume")
  const SPAWN := Text("spawn")
  const SAY := Text("say")

  // Integer division in Go truncates towards zero.
  function Minute(seconds: int): int {
    if seconds >= 0 then seconds / 60 else -(-seconds / 60)
  }

  function Signed(n: int): Bytes {
    if n < 0 then [45] + Decimal(-n) else Decimal(n)
  }

  /** What a say hashes: its text and the minute, so that repeating it later is not a repeat. */
  function Stamped(prompt: Bytes, seconds: int): Bytes {
    prompt + [AT] + Signed(Minute(seconds))
  }

  /** None is the refusal. `now` is in seconds from the Unix epoch. */
  function ValidCommand(rawKind: Bytes, rawSession: Bytes, rawWorkspace: Bytes, rawPrompt: Bytes, now: int): Option<Command> {
    var kind, session := Trim(rawKind), Trim(rawSession);
    var workspace, prompt := Trim(rawWorkspace), Trim(rawPrompt);
    if kind == COMPACT || kind == RESUME then
      if session == [] || |session| > MAX_TARGET || workspace != [] || prompt != [] then None
      else Some(Command(kind + [SEP] + session, kind, session, [], [], now))
    else if kind == SPAWN then
      if workspace == [] || |workspace| > MAX_WORKSPACE || |prompt| > MAX_PROMPT || session != [] then None
      else Some(Command(SPAWN + [SEP] + workspace + [SEP] + Hash(prompt), kind, [], workspace, prompt, now))
    else if kind == SAY then
      if session == [] || |session| > MAX_TARGET || prompt == [] || |prompt| > MAX_PROMPT || workspace != [] then None
      else Some(Command(SAY + [SEP] + session + [SEP] + Hash(Stamped(prompt, now)), kind, session, [], prompt, now))
    else None
  }

  // ----- what is accepted, said outright

  // The whole minutes of a time, towards zero.
  predicate WholeMinutes(seconds: int, m: int) {
    if seconds >= 0 then 60 * m <= seconds < 60 * m + 60 else 60 * m - 60 < seconds <= 60 * m
  }

  lemma MinuteIs(seconds: int, m: int)
    ensures WholeMinutes(seconds, m) <==> m == Minute(seconds)
  {
  }

  predicate Answers(c: Command, kind: Bytes, session: Bytes, workspace: Bytes, prompt: Bytes, now: int) {
    c.kind == kind && c.sessionID == session && c.workspace == workspace && c.prompt == prompt && c.at == now
  }

  /** What a request of trimmed fields is accepted as, kind by kind; anything else is refused. */
  ghost predicate AcceptedAs(kind: Bytes, session: Bytes, workspace: Bytes, prompt: Bytes, now: int, c: Command) {
    && Answers(c, kind, session, workspace, prompt, now)
    && (if kind == Text("compact") || kind == Text("resume") then
          1 <= |session| <= 128 && workspace == [] && prompt == [] && c.id == kind + Text(":") + session
        else if kind == Text("spawn") then
          && session == [] && 1 <= |workspace| <= 200 && |prompt| <= 4096
          && c.id == Text("spawn:") + workspace + Text(":") + Hash(prompt)
        else
          && kind == Text("say") && 1 <= |session| <= 128 && workspace == [] && 1 <= |prompt| <= 4096
          && exists m :: WholeMinutes(now, m) && c.id == Text("say:") + session + Text(":") + Hash(prompt + Text("@") + Signed(m)))
  }

  lemma SpelledIds()
    ensures SPAWN + [SEP] == Text("spawn:") && SAY + [SEP] == Text("say:") && Text(":") == [SEP] && Text("@") == [AT]
  {
  }

  /** The raw fields that are accepted, and as which command; the rest are refused. */
  lemma AcceptedIff(rawKind: Bytes, rawSession: Bytes, rawWorkspace: Bytes, rawPrompt: Bytes, now: int, c: Command)
    ensures ValidCommand(rawKind, rawSession, rawWorkspace, rawPrompt, now) == Some(c)
            <==> AcceptedAs(Trim(rawKind), Trim(rawSession), Trim(rawWorkspace), Trim(rawPrompt), now, c)
  {
    hide Trim, Hash, Text, Signed, WholeMinutes, Minute;
    SpelledIds();
    KindsDiffer();
    MinuteIs(now, Minute(now));
    forall m ensures WholeMinutes(now, m) <==> m == Minute(now) {
      MinuteIs(now, m);
    }
  }

  /** How a minute is written. */
  lemma SignedSpells(n: int)
    ensures n >= 0 ==> Signed(n) == Decimal(n)
    ensures n < 0 ==> Signed(n) == Text("-") + Decimal(-n)
  {
    assert Text("-") == [45];
  }

  ghost predicate Accepted(c: Command) {
    exists k, s, w, p, t :: ValidCommand(k, s, w, p, t) == Some(c)
  }

  function Target(c: Command): Bytes {
    if c.kind == SPAWN then c.workspace else c.sessionID
  }

  predicate Hashes(c: Command) {
    c.kind == SPAWN || c.kind == SAY
  }

  /** The text a spawn's or a say's identity hashes. */
  function HashedText(c: Command): Bytes {
    if c.kind == SPAWN then c.prompt else Stamped(c.prompt, c.at)
  }

  predicate KnownKind(k: Bytes) {
    k == COMPACT || k == RESUME || k == SPAWN || k == SAY
  }

  lemma KindsAreWords(k: Bytes)
    requires KnownKind(k)
    ensures SEP !in k && Trimmed(k)
  {
  }

  function Suffix(c: Command): Bytes {
    if Hashes(c) then Target(c) + [SEP] + Hash(HashedText(c)) else Target(c)
  }

  lemma IdParts(c: Command)
    requires Accepted(c)
    ensures KnownKind(c.kind) && c.id == c.kind + [SEP] + Suffix(c)
    ensures Trimmed(c.sessionID) && Trimmed(c.workspace) && Trimmed(c.prompt)
    ensures ValidCommand(c.kind, c.sessionID, c.workspace, c.prompt, c.at) == Some(c)
  {
    hide Trim, Trimmed, Hash, Stamped, COMPACT, RESUME, SPAWN, SAY;
    var k, s, w, p, t :| ValidCommand(k, s, w, p, t) == Some(c);
    TrimTrims(k);
    TrimTrims(s);
    TrimTrims(w);
    TrimTrims(p);
    NothingIsTrimmed();
    TrimTrims([]);
    KindsDiffer();
  }

  lemma NothingIsTrimmed()
    ensures Trimmed([])
  {
  }

  lemma KindsDiffer()
    ensures COMPACT != SPAWN && COMPACT != SAY && RESUME != SPAWN && RESUME != SAY && SPAWN != SAY && COMPACT != RESUME
  {
    assert COMPACT[0] == 99 && RESUME[0] == 114 && |SPAWN| == 5 && |SAY| == 3;
  }

  /**
   * Two accepted commands have one identity exactly when they have one kind and one target
   * and, where the kind hashes a text, the same eight digits; ':' in a name changes nothing.
   */
  lemma IdsNameTargets(c: Command, d: Command)
    requires Accepted(c) && Accepted(d)
    ensures c.id == d.id <==>
              c.kind == d.kind && Target(c) == Target(d)
              && (Hashes(c) ==> Hash(HashedText(c)) == Hash(HashedText(d)))
  {
    hide Accepted, Hash, Target, HashedText, KnownKind;
    IdParts(c);
    IdParts(d);
    KindsAreWords(c.kind);
    KindsAreWords(d.kind);
    if c.id == d.id {
      CutAt(c.kind, Suffix(c), d.kind, Suffix(d), SEP);
      if Hashes(c) {
        CutLast(Target(c), Hash(HashedText(c)), Target(d), Hash(HashedText(d)), SEP);
      }
    }
  }

  /** The hashed text of a say gives back its prompt and its minute. */
  lemma StampsDiffer(p: Bytes, s: int, q: Bytes, t: int)
    ensures Stamped(p, s) == Stamped(q, t) <==> p == q && Minute(s) == Minute(t)
  {
    var m, n := Minute(s), Minute(t);
    assert AT !in Signed(m) && AT !in Signed(n);
    if Stamped(p, s) == Stamped(q, t) {
      CutLast(p, Signed(m), q, Signed(n), AT);
      SignedInjective(m, n);
    }
  }

  lemma SignedInjective(m: int, n: int)
    ensures Signed(m) == Signed(n) <==> m == n
  {
    if m < 0 && n < 0 {
      DecimalInjective(-m, -n);
      if Signed(m) == Signed(n) {
        CutFront([45], Decimal(-m), Decimal(-n));
      }
    } else if m >= 0 && n >= 0 {
      DecimalInjective(m, n);
    } else if m < 0 {
      assert Signed(m)[0] == 45 && Digit(Decimal(n)[0]);
    } else {
      assert Signed(n)[0] == 45 && Digit(Decimal(m)[0]);
    }
  }

  /**
   * Sending an accepted command's own fields again is accepted again, at any time, as the
   * same command; and its identity is the same except for a say in another minute, when it
   * is the same only if the hash collides.
   */
  lemma Revalidates(c: Command, now: int)
    requires Accepted(c)
    ensures var r := ValidCommand(c.kind, c.sessionID, c.workspace, c.prompt, now);
            && r.Some? && r.value.(id := c.id, at := c.at) == c
            && (c.kind != SAY || Minute(now) == Minute(c.at) ==> r.value.id == c.id)
            && (c.kind == SAY ==> (r.value.id == c.id <==> Hash(Stamped(c.prompt, now)) == Hash(Stamped(c.prompt, c.at))))
  {
    hide Trim, Trimmed, Hash, Stamped, COMPACT, RESUME, SPAWN, SAY;
    IdParts(c);
    TrimTrims(c.sessionID);
    TrimTrims(c.workspace);
    TrimTrims(c.prompt);
    KindsDiffer();
    var r := ValidCommand(c.kind, c.sessionID, c.workspace, c.prompt, now);
    assert r.Some?;
    if c.kind == SAY {
      StampsDiffer(c.prompt, now, c.prompt, c.at);
      assert Accepted(r.value);
      IdsNameTargets(c, r.value);
    }
  }
}
