/** The texts that identify a process: decimal numbers, fields of a /proc stat line, and keys of a registration. */
module ProcText {
  import opened Prelude

  const NUL := '\0'
  const TWO_TO_THE_64: nat := 0x1_0000_0000_0000_0000

  type Ticks = n: nat | n < TWO_TO_THE_64
  type Pid = n: int | -0x8000_0000 <= n < 0x8000_0000

  /** A process is its number together with its start time, so that a reused number is another process. */
  datatype Process = Process(pid: Pid, start: Ticks)

  // ---------------------------------------------------------------- decimal numbers

  predicate IsDigit(c: char) {
    '0' <= c <= '9'
  }

  /** The characters that C's `isspace` accepts; reading a field from a stream skips them too. */
  predicate IsCSpace(c: char) {
    c == ' ' || 9 <= c as int <= 13
  }

  predicate AllDigits(text: string) {
    forall k :: 0 <= k < |text| ==> IsDigit(text[k])
  }

  function Digit(n: nat): char
    requires n < 10
  {
    "0123456789"[n]
  }

  function Decimal(n: nat): (text: string)
    ensures text != [] && AllDigits(text)
  {
    if n < 10 then [Digit(n)] else Decimal(n / 10) + [Digit(n % 10)]
  }

  function DigitsValue(text: string): nat
    requires AllDigits(text)
  {
    if text == [] then 0
    else DigitsValue(text[..|text| - 1]) * 10 + (text[|text| - 1] as int - '0' as int)
  }

  lemma {:induction false} DecimalRoundTrip(n: nat)
    ensures DigitsValue(Decimal(n)) == n
  {
    if n >= 10 {
      DecimalRoundTrip(n / 10);
      assert Decimal(n)[..|Decimal(n)| - 1] == Decimal(n / 10);
    } else {
      assert Decimal(n)[..0] == [];
    }
  }

  function WithoutLeadingSpace(text: string): string {
    if text != [] && IsCSpace(text[0]) then WithoutLeadingSpace(text[1..]) else text
  }

  function LeadingDigits(text: string): (n: nat)
    ensures n <= |text| && AllDigits(text[..n])
    ensures n < |text| ==> !IsDigit(text[n])
  {
    if text == [] || !IsDigit(text[0]) then 0
    else
      var n := LeadingDigits(text[1..]) + 1;
      assert forall k :: 1 <= k < n ==> text[k] == text[1..][k - 1];
      n
  }

  datatype Number = Number(negative: bool, magnitude: nat)

  /** Reads as strtol does: leading space, a sign, then as many digits as there are; the rest is ignored. */
  function Scanned(text: string): Option<Number> {
    var t := WithoutLeadingSpace(text);
    var signed := t != [] && (t[0] == '-' || t[0] == '+');
    var digits := if signed then t[1..] else t;
    var n := LeadingDigits(digits);
    if n == 0 then None else Some(Number(signed && t[0] == '-', DigitsValue(digits[..n])))
  }

  /** A minus sign negates modulo 2^64, as strtoull does. */
  function ToUnsigned(text: string): Option<Ticks> {
    match Scanned(text)
    case None => None
    case Some(Number(negative, magnitude)) =>
      if magnitude >= TWO_TO_THE_64 then None
      else if negative && magnitude > 0 then Some(TWO_TO_THE_64 - magnitude)
      else Some(magnitude)
  }

  function ToInt32(text: string): Option<Pid> {
    match Scanned(text)
    case None => None
    case Some(Number(negative, magnitude)) =>
      var value: int := if negative then 0 - magnitude else magnitude;
      if -0x8000_0000 <= value < 0x8000_0000 then Some(value) else None
  }

  predicate AllSpace(text: string) {
    forall k :: 0 <= k < |text| ==> IsCSpace(text[k])
  }

  lemma {:induction false} SpaceIsSkipped(space: string, text: string)
    requires AllSpace(space) && (text != [] ==> !IsCSpace(text[0]))
    ensures WithoutLeadingSpace(space + text) == text
  {
    if space != [] {
      assert (space + text)[1..] == space[1..] + text;
      SpaceIsSkipped(space[1..], text);
    } else {
      assert space + text == text;
    }
  }

  lemma {:induction false} DigitsAreTaken(digits: string, rest: string)
    requires AllDigits(digits) && (rest != [] ==> !IsDigit(rest[0]))
    ensures LeadingDigits(digits + rest) == |digits| && (digits + rest)[..|digits|] == digits
  {
    if digits == [] {
      assert digits + rest == rest;
    } else {
      assert (digits + rest)[1..] == digits[1..] + rest;
      DigitsAreTaken(digits[1..], rest);
    }
  }

  /** Space, a sign, digits, and then anything that is not a digit: the number is that of the digits and the sign. */
  lemma NumberIsScanned(space: string, sign: string, digits: string, rest: string)
    requires AllSpace(space) && sign in {"", "-", "+"} && digits != [] && AllDigits(digits)
    requires rest != [] ==> !IsDigit(rest[0])
    ensures Scanned(space + (sign + (digits + rest))) == Some(Number(sign == "-", DigitsValue(digits)))
  {
    SpaceIsSkipped(space, sign + (digits + rest));
    DigitsAreTaken(digits, rest);
    var t := sign + (digits + rest);
    if sign != "" {
      assert t[1..] == digits + rest;
    } else {
      assert t == digits + rest && IsDigit(t[0]);
    }
  }

  /** And what is not of this form is no number. */
  lemma {:induction false} ScannedHasDigits(text: string) returns (space: string, sign: string, digits: string, rest: string)
    requires Scanned(text).Some?
    ensures AllSpace(space) && sign in {"", "-", "+"} && digits != [] && AllDigits(digits)
    ensures text == space + (sign + (digits + rest))
  {
    if text != [] && IsCSpace(text[0]) {
      space, sign, digits, rest := ScannedHasDigits(text[1..]);
      space := [text[0]] + space;
    } else {
      space := "";
      sign := if text != [] && (text[0] == '-' || text[0] == '+') then [text[0]] else "";
      var tail := text[|sign|..];
      var n := LeadingDigits(tail);
      digits, rest := tail[..n], tail[n..];
      assert tail == digits + rest;
    }
  }

  /** A printed number is read back if it is in range, and refused if it is not. */
  lemma DecimalIsRead(n: nat)
    ensures ToUnsigned(Decimal(n)) == if n < TWO_TO_THE_64 then Some(n) else None
    ensures ToInt32(Decimal(n)) == if n < 0x8000_0000 then Some(n) else None
  {
    DecimalRoundTrip(n);
    NumberIsScanned("", "", Decimal(n), "");
    assert "" + ("" + (Decimal(n) + "")) == Decimal(n);
  }

  /** With a minus sign, an unsigned number is the complement to 2^64 and a signed one is negative. */
  lemma NegativeIsRead(n: nat)
    ensures ToUnsigned("-" + Decimal(n))
            == if n == 0 then Some(0) else if n < TWO_TO_THE_64 then Some(TWO_TO_THE_64 - n) else None
    ensures ToInt32("-" + Decimal(n)) == if n <= 0x8000_0000 then Some(-(n as int)) else None
  {
    DecimalRoundTrip(n);
    NumberIsScanned("", "-", Decimal(n), "");
    assert "" + ("-" + (Decimal(n) + "")) == "-" + Decimal(n);
  }

  // ---------------------------------------------------------------- searching

  /** The first position of `c` at or after `from`, or -1. */
  function FirstFrom(text: string, c: char, from: nat): (r: int)
    requires from <= |text|
    ensures r == -1 || (from <= r < |text| && text[r] == c)
    ensures forall k :: from <= k < (if r == -1 then |text| else r) ==> text[k] != c
    decreases |text| - from
  {
    if from == |text| then -1 else if text[from] == c then from else FirstFrom(text, c, from + 1)
  }

  /** The last position of `c`, or -1. */
  function Last(text: string, c: char): (r: int)
    ensures -1 <= r < |text|
    ensures r >= 0 ==> text[r] == c
    ensures forall k :: r < k < |text| ==> text[k] != c
  {
    if text == [] then -1
    else if text[|text| - 1] == c then |text| - 1
    else Last(text[..|text| - 1], c)
  }

  // ---------------------------------------------------------------- fields

  predicate IsWord(w: string) {
    w != [] && forall k :: 0 <= k < |w| ==> !IsCSpace(w[k])
  }

  function WordLength(text: string): (n: nat)
    ensures n <= |text|
    ensures forall k :: 0 <= k < n ==> !IsCSpace(text[k])
    ensures n < |text| ==> IsCSpace(text[n])
  {
    if text == [] || IsCSpace(text[0]) then 0
    else
      var n := WordLength(text[1..]) + 1;
      assert forall k :: 1 <= k < n ==> text[k] == text[1..][k - 1];
      n
  }

  function Words(text: string): seq<string>
    decreases |text|
  {
    if text == [] then []
    else if IsCSpace(text[0]) then Words(text[1..])
    else [text[..WordLength(text)]] + Words(text[WordLength(text)..])
  }

  method Split(value: string) returns (fields: seq<string>)
    ensures fields == Words(value)
  {
    fields := [];
    var rest := value;
    while rest != []
      invariant fields + Words(rest) == Words(value)
      decreases |rest|
    {
      if IsCSpace(rest[0]) {
        rest := rest[1..];
      } else {
        var n := WordLength(rest);
        fields := fields + [rest[..n]];
        rest := rest[n..];
      }
    }
  }

  function Spaced(words: seq<string>): string {
    if words == [] then "" else " " + (words[0] + Spaced(words[1..]))
  }

  lemma FirstWord(w: string, rest: string)
    requires IsWord(w) && (rest != [] ==> IsCSpace(rest[0]))
    ensures WordLength(w + rest) == |w|
    ensures (w + rest)[..|w|] == w && (w + rest)[|w|..] == rest
  {
    assert forall k :: 0 <= k < |w| ==> (w + rest)[k] == w[k];
    assert rest != [] ==> (w + rest)[|w|] == rest[0];
  }

  lemma WordsOfFirst(w: string, rest: string)
    requires IsWord(w) && (rest != [] ==> IsCSpace(rest[0]))
    ensures Words(w + rest) == [w] + Words(rest)
  {
    FirstWord(w, rest);
    assert (w + rest)[0] == w[0];
  }

  lemma WordsAfterSpace(text: string)
    ensures Words(" " + text) == Words(text)
  {
    assert (" " + text)[1..] == text;
  }

  lemma {:induction false} WordsRoundTrip(words: seq<string>)
    requires forall k :: 0 <= k < |words| ==> IsWord(words[k])
    ensures Words(Spaced(words)) == words
  {
    if words != [] {
      WordsRoundTrip(words[1..]);
      WordsAfterSpace(words[0] + Spaced(words[1..]));
      WordsOfFirst(words[0], Spaced(words[1..]));
    }
  }

  lemma WordIsItsOnlyWord(w: string)
    requires IsWord(w)
    ensures Words(w) == [w]
  {
    WordsOfFirst(w, "");
    assert w + "" == w;
  }

  /** Any white space separates the words before it from those after it. */
  lemma {:induction false} WordsSplitAtSpace(text: string, c: char, rest: string)
    requires IsCSpace(c)
    ensures Words(text + ([c] + rest)) == Words(text) + Words(rest)
    decreases |text|
  {
    var whole := text + ([c] + rest);
    if text == [] {
      assert whole == [c] + rest && whole[1..] == rest;
    } else if IsCSpace(text[0]) {
      assert whole[1..] == text[1..] + ([c] + rest);
      WordsSplitAtSpace(text[1..], c, rest);
    } else {
      var n := WordLength(text);
      WordsSplitAtSpace(text[n..], c, rest);
      FirstWordThenSplit(text[..n], text[n..], c, rest);
      assert text == text[..n] + text[n..];
    }
  }

  lemma JoinedTexts(word: string, tail: string, c: char, rest: string)
    requires IsCSpace(c) && (tail != [] ==> IsCSpace(tail[0]))
    ensures (word + tail) + ([c] + rest) == word + (tail + ([c] + rest))
    ensures IsCSpace((tail + ([c] + rest))[0])
  {
  }

  lemma JoinedLists(word: string, words: seq<string>, more: seq<string>)
    ensures [word] + (words + more) == ([word] + words) + more
  {
  }

  lemma FirstWordThenSplit(word: string, tail: string, c: char, rest: string)
    requires IsWord(word) && IsCSpace(c) && (tail != [] ==> IsCSpace(tail[0]))
    requires Words(tail + ([c] + rest)) == Words(tail) + Words(rest)
    ensures Words((word + tail) + ([c] + rest)) == Words(word + tail) + Words(rest)
  {
    JoinedTexts(word, tail, c, rest);
    WordsOfFirst(word, tail);
    WordsOfFirst(word, tail + ([c] + rest));
    JoinedLists(word, Words(tail), Words(rest));
  }

  lemma {:induction false} SpacedHasOnlyItsWords(words: seq<string>, c: char)
    requires c != ' ' && forall k :: 0 <= k < |words| ==> c !in words[k]
    ensures c !in Spaced(words)
  {
    if words != [] {
      SpacedHasOnlyItsWords(words[1..], c);
    }
  }

  // ---------------------------------------------------------------- a line of /proc/PID/stat

  datatype Snapshot = Snapshot(state: char, cpuTime: Ticks, start: Ticks)

  function FieldsSnapshot(fields: seq<string>): Option<Snapshot> {
    if |fields| <= 19 || |fields[0]| != 1 then None
    else
      var user, system, start := ToUnsigned(fields[11]), ToUnsigned(fields[12]), ToUnsigned(fields[19]);
      if user.None? || system.None? || start.None? then None
      else Some(Snapshot(fields[0][0], (user.value + system.value) % TWO_TO_THE_64, start.value))
  }

  /** The fields follow the last closing parenthesis, because a command name may hold spaces and parentheses. */
  function ParsedStat(line: string): Option<Snapshot> {
    var left, right := FirstFrom(line, '(', 0), Last(line, ')');
    if left == -1 || right == -1 || right <= left || right + 1 >= |line| then None
    else FieldsSnapshot(Words(line[right + 1..]))
  }

  method ParseProcStatLine(line: string) returns (snapshot: Option<Snapshot>)
    ensures snapshot == ParsedStat(line)
  {
    var left, right := FirstFrom(line, '(', 0), Last(line, ')');
    if left == -1 || right == -1 || right <= left || right + 1 >= |line| {
      return None;
    }
    var fields := Split(line[right + 1..]);
    if |fields| <= 19 || |fields[0]| != 1 {
      return None;
    }
    var user, system, start := ToUnsigned(fields[11]), ToUnsigned(fields[12]), ToUnsigned(fields[19]);
    if user.None? || system.None? || start.None? {
      return None;
    }
    return Some(Snapshot(fields[0][0], (user.value + system.value) % TWO_TO_THE_64, start.value));
  }

  function FieldsStart(fields: seq<string>): Option<Ticks> {
    if |fields| <= 19 then None
    else
      var start := ToUnsigned(fields[19]);
      if start.Some? && start.value > 0 then start else None
  }

  /** The client reads only its own start time, and accepts lines the monitor would refuse. */
  function OwnStart(line: string): Option<Ticks> {
    var right := Last(line, ')');
    if right == -1 || right + 1 >= |line| then None
    else FieldsStart(Words(line[right + 1..]))
  }

  method ReadProcessIdentity(line: string) returns (start: Option<Ticks>)
    ensures start == OwnStart(line)
  {
    var right := Last(line, ')');
    if right == -1 || right + 1 >= |line| {
      return None;
    }
    var fields := Split(line[right + 1..]);
    if |fields| <= 19 {
      return None;
    }
    start := ToUnsigned(fields[19]);
    if start.Some? && start.value == 0 {
      start := None;
    }
  }

  /** A field the kernel prints: a word without a closing parenthesis. */
  predicate IsField(w: string) {
    IsWord(w) && ')' !in w
  }

  ghost predicate StatFields(fields: seq<string>, state: char, user: Ticks, system: Ticks, start: Ticks) {
    && |fields| > 19 && (forall k :: 0 <= k < |fields| ==> IsField(fields[k]))
    && fields[0] == [state] && fields[11] == Decimal(user) && fields[12] == Decimal(system)
    && fields[19] == Decimal(start)
  }

  function StatLine(pid: nat, comm: string, fields: seq<string>): string {
    Decimal(pid) + " (" + comm + ")" + Spaced(fields)
  }

  lemma LastIsBefore(head: string, tail: string)
    requires ')' !in tail
    ensures Last(head + ")" + tail, ')') == |head|
    ensures (head + ")" + tail)[|head| + 1..] == tail
    ensures var left := FirstFrom(head + ")" + tail, '(', 0); 0 <= left < |head| <==> '(' in head
  {
    var line := head + ")" + tail;
    assert line[|head|] == ')';
    assert forall k :: |head| < k < |line| ==> line[k] == tail[k - |head| - 1];
    if '(' in head {
      var k :| 0 <= k < |head| && head[k] == '(';
      assert line[k] == '(';
    }
  }

  /** Only what follows the last closing parenthesis is split into fields, and there has to be something. */
  lemma TailIsParsed(head: string, tail: string)
    requires ')' !in tail
    ensures ParsedStat(head + ")" + tail) == if '(' in head && tail != [] then FieldsSnapshot(Words(tail)) else None
    ensures OwnStart(head + ")" + tail) == if tail != [] then FieldsStart(Words(tail)) else None
  {
    LastIsBefore(head, tail);
  }

  /** Whatever the command name holds, the tail after its own closing parenthesis is what gets split. */
  lemma StatLineTail(pid: nat, comm: string, fields: seq<string>)
    requires fields != [] && forall k :: 0 <= k < |fields| ==> IsField(fields[k])
    ensures ParsedStat(StatLine(pid, comm, fields)) == FieldsSnapshot(fields)
    ensures OwnStart(StatLine(pid, comm, fields)) == FieldsStart(fields)
  {
    assert '(' in " (";
    SpacedHasOnlyItsWords(fields, ')');
    TailIsParsed(Decimal(pid) + " (" + comm, Spaced(fields));
    WordsRoundTrip(fields);
  }

  lemma FieldsRoundTrip(fields: seq<string>, state: char, user: Ticks, system: Ticks, start: Ticks)
    requires StatFields(fields, state, user, system, start)
    ensures FieldsSnapshot(fields) == Some(Snapshot(state, (user + system) % TWO_TO_THE_64, start))
    ensures FieldsStart(fields) == if start > 0 then Some(start) else None
  {
    DecimalIsRead(user);
    DecimalIsRead(system);
    DecimalIsRead(start);
  }

  /**
   Parsing a printed stat line gives back state, processor time and start time for every command name, and the
   client finds the same start time in it.
   */
  lemma StatRoundTrip(pid: nat, comm: string, fields: seq<string>, state: char, user: Ticks, system: Ticks, start: Ticks)
    requires StatFields(fields, state, user, system, start)
    ensures ParsedStat(StatLine(pid, comm, fields)) == Some(Snapshot(state, (user + system) % TWO_TO_THE_64, start))
    ensures OwnStart(StatLine(pid, comm, fields)) == if start > 0 then Some(start) else None
  {
    StatLineTail(pid, comm, fields);
    FieldsRoundTrip(fields, state, user, system, start);
  }

  /** On every line at all: what the monitor reads as a nonzero start time, the client reads as the same. */
  lemma ClientAgreesWithMonitor(line: string)
    requires ParsedStat(line).Some?
    ensures OwnStart(line) == if ParsedStat(line).value.start > 0 then Some(ParsedStat(line).value.start) else None
  {
  }

  // ---------------------------------------------------------------- keys

  datatype Identity = Identity(name: string, pid: Pid, start: Ticks, id: string)

  predicate WellFormed(i: Identity) {
    i.name != [] && i.id != [] && i.pid > 0 && i.start != 0
  }

  function Owner(i: Identity): Process {
    Process(i.pid, i.start)
  }

  function IdentityKey(i: Identity): string
    requires i.pid >= 0
  {
    i.name + [NUL] + (Decimal(i.pid) + [NUL] + (Decimal(i.start) + [NUL] + i.id))
  }

  /** The texts before and after the first NUL. */
  function Cut(text: string): Option<(string, string)> {
    var at := FirstFrom(text, NUL, 0);
    if at == -1 then None else Some((text[..at], text[at + 1..]))
  }

  /** The two texts between the first three NUL characters. */
  function KeyParts(key: string): Option<(string, string)> {
    var name := Cut(key);
    if name.None? then None
    else
      var pid := Cut(name.value.1);
      if pid.None? then None
      else
        var start := Cut(pid.value.1);
        if start.None? then None else Some((pid.value.0, start.value.0))
  }

  /** The process that pruning reads back from a key. */
  function KeyProcess(key: string): Option<Process> {
    match KeyParts(key)
    case None => None
    case Some((pidText, startText)) =>
      var pid, start := ToInt32(pidText), ToUnsigned(startText);
      if pid.None? || start.None? then None else Some(Process(pid.value, start.value))
  }

  predicate NulFree(text: string) {
    NUL !in text
  }

  lemma CutAfter(part: string, rest: string)
    requires NulFree(part)
    ensures Cut(part + [NUL] + rest) == Some((part, rest))
  {
    var whole := part + [NUL] + rest;
    assert whole[|part|] == NUL;
    assert forall k :: 0 <= k < |part| ==> whole[k] == part[k];
    assert whole[..|part|] == part && whole[|part| + 1..] == rest;
  }

  lemma PartsRecovered(name: string, pid: string, start: string, id: string)
    requires NulFree(name) && NulFree(pid) && NulFree(start)
    ensures KeyParts(name + [NUL] + (pid + [NUL] + (start + [NUL] + id))) == Some((pid, start))
  {
    CutAfter(name, pid + [NUL] + (start + [NUL] + id));
    CutAfter(pid, start + [NUL] + id);
    CutAfter(start, id);
  }

  lemma KeyRecoversProcess(i: Identity)
    requires NulFree(i.name) && i.pid >= 0
    ensures KeyProcess(IdentityKey(i)) == Some(Owner(i))
  {
    PartsRecovered(i.name, Decimal(i.pid), Decimal(i.start), i.id);
    DecimalIsRead(i.pid);
    DecimalIsRead(i.start);
  }

  lemma SplitsOnce(a: string, b: string, c: string, d: string)
    requires NulFree(a) && NulFree(c) && a + [NUL] + b == c + [NUL] + d
    ensures a == c && b == d
  {
    var whole := a + [NUL] + b;
    assert whole[|a|] == NUL && whole[|c|] == NUL;
    assert forall k :: 0 <= k < |a| ==> whole[k] == a[k];
    assert forall k :: 0 <= k < |c| ==> whole[k] == c[k];
    assert |a| == |c|;
    assert a == whole[..|a|] && c == whole[..|c|];
    assert b == whole[|a| + 1..] && d == whole[|c| + 1..];
  }

  lemma KeyIsInjective(i: Identity, j: Identity)
    requires NulFree(i.name) && NulFree(j.name) && i.pid >= 0 && j.pid >= 0
    requires IdentityKey(i) == IdentityKey(j)
    ensures i == j
  {
    var iRest, jRest := Decimal(i.start) + [NUL] + i.id, Decimal(j.start) + [NUL] + j.id;
    SplitsOnce(i.name, Decimal(i.pid) + [NUL] + iRest, j.name, Decimal(j.pid) + [NUL] + jRest);
    SplitsOnce(Decimal(i.pid), iRest, Decimal(j.pid), jRest);
    SplitsOnce(Decimal(i.start), i.id, Decimal(j.start), j.id);
    DecimalRoundTrip(i.pid);
    DecimalRoundTrip(j.pid);
    DecimalRoundTrip(i.start);
    DecimalRoundTrip(j.start);
  }

  lemma CountNul(name: string, pid: string, start: string, id: string)
    requires NulFree(pid) && NulFree(start)
    ensures multiset(name + [NUL] + (pid + [NUL] + (start + [NUL] + id)))[NUL]
            == multiset(name)[NUL] + 3 + multiset(id)[NUL]
  {
    assert multiset(pid)[NUL] == 0 && multiset(start)[NUL] == 0;
  }

  lemma KeyHasThreeMoreNuls(i: Identity)
    requires i.pid >= 0
    ensures multiset(IdentityKey(i))[NUL] == multiset(i.name)[NUL] + 3 + multiset(i.id)[NUL]
  {
    CountNul(i.name, Decimal(i.pid), Decimal(i.start), i.id);
  }

  /** An identity without NUL shares its key with no other identity, whatever characters the other one holds. */
  lemma PlainKeyIsUnique(i: Identity, j: Identity)
    requires NulFree(i.name) && NulFree(i.id) && i.pid >= 0 && j.pid >= 0
    requires IdentityKey(i) == IdentityKey(j)
    ensures i == j
  {
    KeyHasThreeMoreNuls(i);
    KeyHasThreeMoreNuls(j);
    assert multiset(i.name)[NUL] == 0 && multiset(i.id)[NUL] == 0;
    assert NUL in j.name ==> NUL in multiset(j.name);
    KeyIsInjective(i, j);
  }

  /** With a NUL inside the name the texts shift: the key no longer leads back to any process. */
  lemma NulInNameHidesTheProcess(pid: Pid, start: Ticks, id: string)
    requires pid >= 0
    ensures KeyProcess(IdentityKey(Identity("a\0b", pid, start, id))) == None
  {
    var rest := Decimal(start) + [NUL] + id;
    var key := IdentityKey(Identity("a\0b", pid, start, id));
    assert "a\0b" == "a" + [NUL] + "b";
    assert key == "a" + [NUL] + ("b" + [NUL] + (Decimal(pid) + [NUL] + rest));
    PartsRecovered("a", "b", Decimal(pid), rest);
    assert Scanned("b") == None;
  }
}
