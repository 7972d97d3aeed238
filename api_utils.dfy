/** Request-level helpers of the S3 front end (api/utils.go): bucket-name validation and the
    part-size and part-number guards. Go strings are byte strings; a name here is a sequence of
    Unicode scalar values and Go's len() is its UTF-8 length. */
module ApiUtils {

  import opened Wrappers

  /** The limits api/utils.go reads from the storage package. */
  datatype StorageLimits = StorageLimits(maxPartSize: int, minPartSize: int, maxPartNumber: int)

  /** isMaxObjectSize: larger than the largest part. */
  function IsMaxObjectSize(limits: StorageLimits, size: int): bool
  {
    size > limits.maxPartSize
  }

  /** isMinAllowedPartSize: at least the smallest part. */
  function IsMinAllowedPartSize(limits: StorageLimits, size: int): bool
  {
    size >= limits.minPartSize
  }

  /** isMaxPartID: beyond the last part number. */
  function IsMaxPartId(limits: StorageLimits, partId: int): bool
  {
    partId > limits.maxPartNumber
  }

  /** A linear scan that stops at the first element equal to `element`. */
  function Contains(list: seq<string>, element: string): (r: bool)
    ensures r <==> element in list
  {
    if list == [] then false
    else if list[0] == element then true
    else Contains(list[1..], element)
  }

  // ---------------------------------------------------------------------------
  // Characters and strings

  /** unicode.IsSpace: the Latin-1 white space characters and the Unicode
      White_Space characters above Latin-1. */
  predicate IsSpace(c: char)
  {
    || c == ' ' || ('\t' <= c <= '\r')
    || c == '\U{0085}' || c == '\U{00A0}' || c == '\U{1680}'
    || ('\U{2000}' <= c <= '\U{200A}')
    || c == '\U{2028}' || c == '\U{2029}' || c == '\U{202F}' || c == '\U{205F}' || c == '\U{3000}'
  }

  function TrimLeftSpace(s: string): (r: string)
    ensures |r| <= |s| && r == s[|s| - |r|..]
  {
    if s != [] && IsSpace(s[0]) then TrimLeftSpace(s[1..]) else s
  }

  function TrimRightSpace(s: string): (r: string)
    ensures |r| <= |s| && r == s[..|r|]
  {
    if s != [] && IsSpace(s[|s| - 1]) then TrimRightSpace(s[..|s| - 1]) else s
  }

  /** strings.TrimSpace: strip white space from both ends. */
  function TrimSpace(s: string): string
  {
    TrimRightSpace(TrimLeftSpace(s))
  }

  predicate IsBlank(s: string)
  {
    forall i :: 0 <= i < |s| ==> IsSpace(s[i])
  }

  /** Number of bytes of the UTF-8 encoding of one character. */
  function RuneLen(c: char): nat
  {
    if c as int < 0x80 then 1
    else if c as int < 0x800 then 2
    else if c as int < 0x10000 then 3
    else 4
  }

  /** Go's len() of the string: its UTF-8 length in bytes. */
  function Utf8Len(s: string): nat
  {
    if s == [] then 0 else RuneLen(s[0]) + Utf8Len(s[1..])
  }

  predicate IsAscii(s: string)
  {
    forall i :: 0 <= i < |s| ==> s[i] as int < 0x80
  }

  predicate IsDigit(c: char) { '0' <= c <= '9' }

  predicate IsAlnum(c: char) { ('A' <= c <= 'Z') || ('a' <= c <= 'z') || IsDigit(c) }

  predicate IsLowerAlnum(c: char) { ('a' <= c <= 'z') || IsDigit(c) }

  /** The middle class of validBucketName: [A-Za-z0-9.\-_:]. */
  predicate IsBucketChar(c: char) { IsAlnum(c) || c == '.' || c == '-' || c == '_' || c == ':' }

  /** The middle class of validBucketNameStrict: [a-z0-9.\-]. */
  predicate IsStrictBucketChar(c: char) { IsLowerAlnum(c) || c == '.' || c == '-' }

  /** `^[A-Za-z0-9][A-Za-z0-9\.\-\_\:]{1,61}[A-Za-z0-9]$` */
  predicate MatchesValidBucketName(s: string)
  {
    && 3 <= |s| <= 63
    && IsAlnum(s[0]) && IsAlnum(s[|s| - 1])
    && forall i :: 0 < i < |s| - 1 ==> IsBucketChar(s[i])
  }

  /** `^[a-z0-9][a-z0-9\.\-]{1,61}[a-z0-9]$` */
  predicate MatchesValidBucketNameStrict(s: string)
  {
    && 3 <= |s| <= 63
    && IsLowerAlnum(s[0]) && IsLowerAlnum(s[|s| - 1])
    && forall i :: 0 < i < |s| - 1 ==> IsStrictBucketChar(s[i])
  }

  predicate IsDigitRun(s: string)
  {
    |s| > 0 && forall i :: 0 <= i < |s| ==> IsDigit(s[i])
  }

  /** `s` matches `(\d+\.){n}\d+` as a whole. */
  predicate DottedDigits(s: string, n: nat)
    decreases n
  {
    if n == 0 then IsDigitRun(s)
    else exists i :: 0 < i < |s| && s[i] == '.' && IsDigitRun(s[..i]) && DottedDigits(s[i + 1..], n - 1)
  }

  /** `^(\d+\.){3}\d+$` */
  predicate MatchesIpAddress(s: string)
  {
    DottedDigits(s, 3)
  }

  /** strings.Contains(s, "..") */
  predicate ContainsDotDot(s: string)
  {
    exists i :: 0 <= i < |s| - 1 && s[i] == '.' && s[i + 1] == '.'
  }

  // ---------------------------------------------------------------------------
  // Bucket-name validation

  /** The errors of checkBucketNameCommon; each stands for the message text it carries. */
  datatype BucketNameError = EmptyName | NameTooShort | NameTooLong | NameIsIpAddress | InvalidCharacters

  function Message(e: BucketNameError): string
  {
    match e
    case EmptyName => "Bucket name cannot be empty"
    case NameTooShort => "Bucket name cannot be smaller than 3 characters"
    case NameTooLong => "Bucket name cannot be greater than 63 characters"
    case NameIsIpAddress => "Bucket name cannot be an ip address"
    case InvalidCharacters => "Bucket name contains invalid characters"
  }

  /** checkBucketNameCommon: the guards in source order, the first failing one decides. */
  function CheckBucketNameCommon(name: string, strict: bool): (r: Option<BucketNameError>)
    ensures r == Some(EmptyName) <==> IsBlank(name)
    ensures r == None ==> 3 <= Utf8Len(name) <= 63 && 3 <= |name| <= 63
    ensures MatchesIpAddress(name) || ContainsDotDot(name) ==> r.Some?
  {
    TrimSpaceEmpty(name);
    if TrimSpace(name) == [] then Some(EmptyName)
    else if Utf8Len(name) < 3 then Some(NameTooShort)
    else if Utf8Len(name) > 63 then Some(NameTooLong)
    else if MatchesIpAddress(name) then Some(NameIsIpAddress)
    else if ContainsDotDot(name) then Some(InvalidCharacters)
    else if strict then
      (if !MatchesValidBucketNameStrict(name) then Some(InvalidCharacters) else None)
    else if !MatchesValidBucketName(name) then Some(InvalidCharacters)
    else None
  }

  /** CheckValidBucketName: the non-strict check. */
  function CheckValidBucketName(name: string): (r: Option<BucketNameError>)
    ensures r == None <==> MatchesValidBucketName(name) && !MatchesIpAddress(name) && !ContainsDotDot(name)
  {
    CheckBucketNameAccepts(name, false);
    CheckBucketNameCommon(name, false)
  }

  // ---------------------------------------------------------------------------
  // Lemmas

  lemma {:induction false} TrimLeftSpaceFacts(s: string)
    ensures TrimLeftSpace(s) == [] <==> IsBlank(s)
    ensures TrimLeftSpace(s) != [] ==> !IsSpace(TrimLeftSpace(s)[0])
    decreases |s|
  {
    if s != [] && IsSpace(s[0]) {
      TrimLeftSpaceFacts(s[1..]);
      if IsBlank(s[1..]) {
        forall i | 0 <= i < |s| ensures IsSpace(s[i]) {
          if i > 0 { assert s[i] == s[1..][i - 1]; }
        }
      }
      if IsBlank(s) {
        forall i | 0 <= i < |s| - 1 ensures IsSpace(s[1..][i]) {
          assert s[1..][i] == s[i + 1];
        }
      }
    }
  }

  lemma {:induction false} TrimRightSpaceKeepsNonSpaceHead(t: string)
    requires t != [] && !IsSpace(t[0])
    ensures TrimRightSpace(t) != []
    decreases |t|
  {
    if IsSpace(t[|t| - 1]) {
      TrimRightSpaceKeepsNonSpaceHead(t[..|t| - 1]);
    }
  }

  /** strings.TrimSpace(s) == "" exactly when every character of s is white space. */
  lemma TrimSpaceEmpty(s: string)
    ensures TrimSpace(s) == [] <==> IsBlank(s)
  {
    TrimLeftSpaceFacts(s);
    if !IsBlank(s) {
      TrimRightSpaceKeepsNonSpaceHead(TrimLeftSpace(s));
    }
  }

  lemma {:induction false} Utf8LenOfAscii(s: string)
    requires IsAscii(s)
    ensures Utf8Len(s) == |s|
  {
    if s != [] {
      Utf8LenOfAscii(s[1..]);
    }
  }

  lemma MatchesAreAscii(s: string)
    requires MatchesValidBucketName(s)
    ensures IsAscii(s) && Utf8Len(s) == |s| && !IsBlank(s)
  {
    forall i | 0 <= i < |s| ensures s[i] as int < 0x80 {
      if 0 < i < |s| - 1 { assert IsBucketChar(s[i]); }
    }
    Utf8LenOfAscii(s);
    assert !IsSpace(s[0]);
  }

  /** Every strictly valid name is valid. */
  lemma StrictImpliesNonStrict(s: string)
    requires MatchesValidBucketNameStrict(s)
    ensures MatchesValidBucketName(s)
  {
    forall i | 0 < i < |s| - 1 ensures IsBucketChar(s[i]) {
      assert IsStrictBucketChar(s[i]);
    }
  }

  /** A name is accepted exactly when it matches the pattern in force and is neither an
      ip address nor contains "..": the length and emptiness guards add nothing. */
  lemma CheckBucketNameAccepts(name: string, strict: bool)
    ensures CheckBucketNameCommon(name, strict) == None <==>
      && (if strict then MatchesValidBucketNameStrict(name) else MatchesValidBucketName(name))
      && !MatchesIpAddress(name) && !ContainsDotDot(name)
  {
    TrimSpaceEmpty(name);
    if strict && MatchesValidBucketNameStrict(name) {
      StrictImpliesNonStrict(name);
      MatchesAreAscii(name);
    } else if !strict && MatchesValidBucketName(name) {
      MatchesAreAscii(name);
    }
  }

  /** The guards run in source order; each error is reported exactly when every earlier guard
      passed and its own failed. */
  lemma CheckBucketNameOrder(name: string, strict: bool)
    ensures var r := CheckBucketNameCommon(name, strict);
      && (r == Some(NameTooShort) <==> !IsBlank(name) && Utf8Len(name) < 3)
      && (r == Some(NameTooLong) <==> !IsBlank(name) && Utf8Len(name) > 63)
      && (r == Some(NameIsIpAddress) <==> !IsBlank(name) && 3 <= Utf8Len(name) <= 63 && MatchesIpAddress(name))
      && (r == Some(InvalidCharacters) <==>
            && !IsBlank(name) && 3 <= Utf8Len(name) <= 63 && !MatchesIpAddress(name)
            && (ContainsDotDot(name) ||
                !(if strict then MatchesValidBucketNameStrict(name) else MatchesValidBucketName(name))))
  {
    TrimSpaceEmpty(name);
  }

  lemma {:induction false} AsciiConcat(a: string, b: string)
    requires IsAscii(a) && IsAscii(b)
    ensures IsAscii(a + b)
  {
    forall i | 0 <= i < |a + b| ensures (a + b)[i] as int < 0x80 {
      if i < |a| { assert (a + b)[i] == a[i]; } else { assert (a + b)[i] == b[i - |a|]; }
    }
  }

  lemma DottedDigitsCons(a: string, rest: string, n: nat)
    requires IsDigitRun(a) && DottedDigits(rest, n)
    ensures DottedDigits(a + "." + rest, n + 1)
  {
    var s := a + "." + rest;
    assert s[|a|] == '.';
    assert s[..|a|] == a;
    assert s[|a| + 1..] == rest;
  }

  lemma DigitRunIsAscii(s: string)
    requires IsDigitRun(s)
    ensures IsAscii(s)
  {
    forall i | 0 <= i < |s| ensures s[i] as int < 0x80 { assert IsDigit(s[i]); }
  }

  lemma DotJoinAscii(a: string, b: string)
    requires IsAscii(a) && IsAscii(b)
    ensures IsAscii(a + "." + b)
  {
    AsciiConcat(a, ".");
    AsciiConcat(a + ".", b);
  }

  lemma DottedName(a: string, b: string, c: string, d: string)
    requires IsDigitRun(a) && IsDigitRun(b) && IsDigitRun(c) && IsDigitRun(d)
    ensures var name := a + "." + (b + "." + (c + "." + d));
      MatchesIpAddress(name) && IsAscii(name) && name[0] == a[0]
  {
    var cd := c + "." + d;
    var bcd := b + "." + cd;
    DottedDigitsCons(c, d, 0);
    DottedDigitsCons(b, cd, 1);
    DottedDigitsCons(a, bcd, 2);
    DigitRunIsAscii(a); DigitRunIsAscii(b); DigitRunIsAscii(c); DigitRunIsAscii(d);
    DotJoinAscii(c, d);
    DotJoinAscii(b, cd);
    DotJoinAscii(a, bcd);
  }

  /** A name of at least three characters that looks like an address and does not start
      with a space is rejected. */
  lemma IpShapedRejected(name: string, strict: bool)
    requires MatchesIpAddress(name) && IsAscii(name) && |name| >= 3 && !IsSpace(name[0])
    ensures CheckBucketNameCommon(name, strict).Some?
    ensures Utf8Len(name) <= 63 ==> CheckBucketNameCommon(name, strict) == Some(NameIsIpAddress)
  {
    Utf8LenOfAscii(name);
    assert !IsBlank(name);
    if Utf8Len(name) <= 63 {
      CheckBucketNameOrder(name, strict);
    }
  }

  /** A name of four dot-separated digit runs is always rejected, and by the ip guard
      whenever it is short enough to reach it. */
  lemma IpAddressRejected(a: string, b: string, c: string, d: string, strict: bool)
    requires IsDigitRun(a) && IsDigitRun(b) && IsDigitRun(c) && IsDigitRun(d)
    ensures var name := a + "." + b + "." + c + "." + d;
      && CheckBucketNameCommon(name, strict).Some?
      && (Utf8Len(name) <= 63 ==> CheckBucketNameCommon(name, strict) == Some(NameIsIpAddress))
  {
    assert a + "." + b + "." + c + "." + d == a + "." + (b + "." + (c + "." + d));
    DottedName(a, b, c, d);
    assert IsDigit(a[0]);
    IpShapedRejected(a + "." + (b + "." + (c + "." + d)), strict);
  }
}
