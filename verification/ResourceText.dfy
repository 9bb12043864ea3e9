/**
 The textual form of resources: how they are printed, how they are parsed back,
 and exactly which of them survive the round trip.
 */
module ResourceText {
  import opened Wrappers
  import opened Naming

  datatype Error = InvalidResourceFormat

  const SEPARATOR := "::::"

  function Digits(n: nat): string {
    (if n < 10 then "" else Digits(n / 10)) + ["0123456789"[n % 10]]
  }

  function PrintInt(n: int): string {
    if n < 0 then "-" + Digits(-n) else Digits(n)
  }

  function Print(r: Resource): string {
    match r
    case Descriptor(File(path)) => "file://" + path
    case Descriptor(Stream(local, peer)) => "stream://" + local + SEPARATOR + peer
    case Process(pid, startTime, exePath) => "process://" + PrintInt(pid) + "::" + PrintInt(startTime) + "::" + exePath
    case Null => "None"
  }

  function PrintLocalized(r: LocalizedResource): string {
    Print(r.resource) + "@" + r.nodeId
  }

  // ---------------------------------------------------------------- searching

  predicate SeparatorAt(s: string, i: nat) {
    i + 4 <= |s| && s[i] == ':' && s[i + 1] == ':' && s[i + 2] == ':' && s[i + 3] == ':'
  }

  ghost predicate HasSeparator(s: string) {
    exists i: nat :: SeparatorAt(s, i)
  }

  function FindSeparator(s: string, from: nat): (r: Option<nat>)
    requires from <= |s|
    ensures r.Some? ==> from <= r.value && SeparatorAt(s, r.value)
    ensures forall i: nat :: from <= i < (if r.Some? then r.value else |s|) ==> !SeparatorAt(s, i)
    decreases |s| - from
  {
    if SeparatorAt(s, from) then Some(from)
    else if from == |s| then None
    else FindSeparator(s, from + 1)
  }

  /** The parts between separators, found from left to right. */
  function Split(s: string): (parts: seq<string>)
    ensures |parts| >= 1
    ensures |parts| == 1 ==> parts[0] == s
    decreases |s|
  {
    match FindSeparator(s, 0)
    case None => [s]
    case Some(i) => [s[..i]] + Split(s[i + 4..])
  }

  function LastAt(s: string): (r: Option<nat>)
    ensures r.Some? ==> r.value < |s| && s[r.value] == '@' && '@' !in s[r.value + 1..]
    ensures r.None? ==> '@' !in s
  {
    if s == "" then None
    else if s[|s| - 1] == '@' then Some(|s| - 1)
    else LastAt(s[..|s| - 1])
  }

  // ---------------------------------------------------------------- parsing

  function Parse(s: string): Result<Resource, Error> {
    if "file://" <= s then Ok(Descriptor(File(s[7..])))
    else if "stream://" <= s then
      var sockets := Split(s[9..]);
      if |sockets| != 2 then Err(InvalidResourceFormat)
      else Ok(Descriptor(Stream(sockets[0], sockets[1])))
    else Err(InvalidResourceFormat)
  }

  function ParseLocalized(s: string): Result<LocalizedResource, Error> {
    match LastAt(s)
    case None => Err(InvalidResourceFormat)
    case Some(i) =>
      match Parse(s[..i])
      case Err(e) => Err(e)
      case Ok(resource) => Ok(LocalizedResource(s[i + 1..], resource))
  }

  // ---------------------------------------------------------------- round trips

  predicate EndsInColon(s: string) {
    s != "" && s[|s| - 1] == ':'
  }

  /** The resources whose printed form is read back as themselves. */
  ghost predicate Readable(r: Resource) {
    match r
    case Descriptor(File(_)) => true
    case Descriptor(Stream(local, peer)) => !HasSeparator(local) && !EndsInColon(local) && !HasSeparator(peer)
    case _ => false
  }

  /** The first separator of a printed stream is the one that was printed, unless the local socket brings its own. */
  lemma FirstSeparator(local: string, peer: string)
    ensures var s := local + SEPARATOR + peer;
            && FindSeparator(s, 0).Some? && FindSeparator(s, 0).value <= |local|
            && (FindSeparator(s, 0).value == |local| <==> !HasSeparator(local) && !EndsInColon(local))
  {
    var s := local + SEPARATOR + peer;
    assert SeparatorAt(s, |local|);
    assert forall k :: 0 <= k < |local| ==> s[k] == local[k];
    if j: nat :| SeparatorAt(local, j) {
      assert SeparatorAt(s, j);
    } else if EndsInColon(local) {
      assert SeparatorAt(s, |local| - 1);
    } else {
      var i := FindSeparator(s, 0).value;
      assert SeparatorAt(local, i) <==> i + 4 <= |local|;
    }
  }

  lemma SplitOnce(s: string)
    ensures |Split(s)| == 1 <==> !HasSeparator(s)
  {
  }

  lemma StreamRoundTrip(local: string, peer: string)
    ensures Split(local + SEPARATOR + peer) == [local, peer]
       <==> !HasSeparator(local) && !EndsInColon(local) && !HasSeparator(peer)
  {
    var s := local + SEPARATOR + peer;
    FirstSeparator(local, peer);
    SplitOnce(peer);
    var i := FindSeparator(s, 0).value;
    var rest := Split(s[i + 4..]);
    assert Split(s) == [s[..i]] + rest;
    if i == |local| {
      assert s[..i] == local && s[i + 4..] == peer;
      assert Split(s)[0] == local && Split(s)[1] == rest[0];
    } else {
      assert |Split(s)[0]| != |local|;
    }
  }

  /** Printing and parsing gives the same resource exactly for the readable ones. */
  lemma ParsesBackExactly(r: Resource)
    ensures Parse(Print(r)) == Ok(r) <==> Readable(r)
  {
    var s := Print(r);
    match r
    case Descriptor(File(path)) =>
      assert s[7..] == path;
    case Descriptor(Stream(local, peer)) =>
      assert s[0] != 'f';
      assert s[9..] == local + SEPARATOR + peer;
      StreamRoundTrip(local, peer);
    case Process(_, _, _) =>
      assert s[0] == 'p';
    case Null =>
      assert s[0] == 'N';
  }

  lemma SplitGivesBack(s: string)
    requires |Split(s)| == 2
    ensures s == Split(s)[0] + SEPARATOR + Split(s)[1]
  {
    var i := FindSeparator(s, 0).value;
    assert Split(s) == [s[..i]] + Split(s[i + 4..]);
    assert s[i..i + 4] == SEPARATOR;
    assert s == s[..i] + s[i..i + 4] + s[i + 4..];
  }

  lemma PrefixAndRest(prefix: string, s: string)
    requires prefix <= s
    ensures s == prefix + s[|prefix|..]
  {
  }

  lemma Associates(a: string, b: string, c: string, d: string)
    ensures a + (b + c + d) == a + b + c + d
  {
  }

  lemma ReadFileIsPrinted(s: string)
    requires "file://" <= s
    ensures Parse(s).Ok? && s == Print(Parse(s).value)
  {
    PrefixAndRest("file://", s);
  }

  lemma ReadStreamIsPrinted(s: string)
    requires "stream://" <= s && |Split(s[9..])| == 2
    ensures s == Print(Descriptor(Stream(Split(s[9..])[0], Split(s[9..])[1])))
  {
    var local, peer := Split(s[9..])[0], Split(s[9..])[1];
    SplitGivesBack(s[9..]);
    PrefixAndRest("stream://", s);
    Associates("stream://", local, SEPARATOR, peer);
  }

  lemma ReadIsPrinted(s: string)
    requires Parse(s).Ok?
    ensures s == Print(Parse(s).value)
  {
    if "file://" <= s {
      ReadFileIsPrinted(s);
    } else {
      ReadStreamIsPrinted(s);
    }
  }

  /** A text is read as a resource if and only if it is the printed form of that resource and it is readable; every
      other text is an error. */
  lemma ParsesExactly(s: string, r: Resource)
    ensures Parse(s) == Ok(r) <==> Readable(r) && s == Print(r)
  {
    ParsesBackExactly(r);
    if Parse(s) == Ok(r) {
      ReadIsPrinted(s);
    }
  }

  ghost function ValueOf(digit: char): nat {
    if '0' <= digit <= '9' then (digit - '0') as nat else 0
  }

  /** A stream is read exactly as it was printed if and only if its sockets leave the separator alone. */
  lemma StreamsReadBackExactly(local: string, peer: string)
    ensures Parse("stream://" + local + "::::" + peer) == Ok(Descriptor(Stream(local, peer))) <==>
            !HasSeparator(local) && !HasSeparator(peer) && (local == "" || local[|local| - 1] != ':')
  {
    ParsesBackExactly(Descriptor(Stream(local, peer)));
  }

  /** The number a string of decimal digits stands for. */
  ghost function Value(digits: string): nat {
    if digits == "" then 0 else 10 * Value(digits[..|digits| - 1]) + ValueOf(digits[|digits| - 1])
  }

  lemma DigitIsDecimal(n: nat)
    requires n < 10
    ensures ValueOf("0123456789"[n]) == n
  {
    if n < 5 {
      assert n == 0 || n == 1 || n == 2 || n == 3 || n == 4;
    } else {
      assert n == 5 || n == 6 || n == 7 || n == 8 || n == 9;
    }
  }

  lemma ValueOfLonger(front: string, last: char)
    ensures Value(front + [last]) == 10 * Value(front) + ValueOf(last)
  {
    var digits := front + [last];
    assert digits[..|digits| - 1] == front;
  }

  lemma {:induction false} DigitsAreDecimal(n: nat)
    ensures Value(Digits(n)) == n
  {
    DigitIsDecimal(n % 10);
    ValueOfLonger(if n < 10 then "" else Digits(n / 10), "0123456789"[n % 10]);
    if n >= 10 {
      DigitsAreDecimal(n / 10);
    }
  }

  /** The printed forms; only files and streams can be read back. */
  lemma PrintedForms(path: string, local: string, peer: string, pid: int, startTime: nat)
    ensures Print(Process(pid, startTime, path))
         == "process://" + (if pid < 0 then "-" + Digits(-pid) else Digits(pid))
            + "::" + Digits(startTime) + "::" + path
    ensures Print(Null) == "None"
    ensures Print(Descriptor(File(path))) == "file://" + path
    ensures Print(Descriptor(Stream(local, peer))) == "stream://" + local + "::::" + peer
  {
  }

  lemma {:induction false} LastAtIsUnique(s: string, k: nat)
    requires k < |s| && s[k] == '@' && '@' !in s[k + 1..]
    ensures LastAt(s) == Some(k)
  {
    if k < |s| - 1 {
      assert s[|s| - 1] in s[k + 1..];
      var t := s[..|s| - 1];
      assert s[k + 1..] == t[k + 1..] + [s[|s| - 1]];
      LastAtIsUnique(t, k);
    }
  }

  /** A localized resource comes back exactly if its resource does and its node has no '@'; its path may have some. */
  lemma LocalizedParsesBackExactly(r: LocalizedResource)
    ensures ParseLocalized(PrintLocalized(r)) == Ok(r) <==> Readable(r.resource) && '@' !in r.nodeId
  {
    var printed, s := Print(r.resource), PrintLocalized(r);
    assert s[|printed|] == '@' && s[|printed| + 1..] == r.nodeId && s[..|printed|] == printed;
    if '@' !in r.nodeId {
      LastAtIsUnique(s, |printed|);
      ParsesBackExactly(r.resource);
    } else if ParseLocalized(s).Ok? {
      assert '@' !in ParseLocalized(s).value.nodeId;
    }
  }

  /** A text is read as a localized resource if and only if it is its printed form and that is readable. */
  lemma LocalizedParsesExactly(s: string, r: LocalizedResource)
    ensures ParseLocalized(s) == Ok(r) <==> Readable(r.resource) && '@' !in r.nodeId && s == PrintLocalized(r)
  {
    LocalizedParsesBackExactly(r);
    if ParseLocalized(s) == Ok(r) {
      var i := LastAt(s).value;
      ParsesExactly(s[..i], r.resource);
      assert s == s[..i] + [s[i]] + s[i + 1..];
    }
  }
}
