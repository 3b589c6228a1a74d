/**
 * The sequential helpers of internal/utils/helpers.go: parsing an ID,
 * validating the inputs of the create command, and the answer loop of the
 * yes/no confirmation prompt.
 */
module Helpers {
  import opened Wrappers
  import opened GoStrings
  import opened GoStrconv

  // ---------------------------------------------------------------- ParseID

  /** Why strconv.Atoi refused its input. */
  datatype NumError = ErrSyntax | ErrRange

  /** The error ParseID wraps around the strconv error: "invalid ID '<idStr>': ...". */
  datatype IDError = InvalidID(idStr: string, cause: NumError)

  const MaxUint64: int := 0xFFFF_FFFF_FFFF_FFFF

  /**
   * The digits after the optional sign start with a run whose value exceeds
   * 64 bits. strconv.ParseUint reads digit by digit and gives up with a range
   * error as soon as the value read so far overflows, before it would meet a
   * later character that is not a digit.
   */
  predicate DigitsOverflow(s: string) {
    DigitsValue(LeadingDigits(Magnitude(s))) > MaxUint64
  }

  /**
   * ParseID: the value and no error exactly when the text is a signed decimal
   * integer that fits in 64 bits; otherwise 0 and an error naming the text,
   * a range error when the text is a decimal or its leading digits already
   * overflow, a syntax error otherwise.
   */
  function ParseID(idStr: string): (r: (int, Option<IDError>))
    ensures r.1.None? <==> IsDecimal(idStr) && InInt64(DecimalValue(idStr))
    ensures r.1.None? ==> r.0 == DecimalValue(idStr)
    ensures r.1.Some? ==> r.0 == 0 && r.1.value.idStr == idStr
    ensures r.1.Some? ==> (r.1.value.cause == ErrRange <==> IsDecimal(idStr) || DigitsOverflow(idStr))
  {
    match Atoi(idStr)
    case Some(n) => (n, None)
    case None =>
      var cause := if IsDecimal(idStr) || DigitsOverflow(idStr) then ErrRange else ErrSyntax;
      (0, Some(InvalidID(idStr, cause)))
  }

  /** Every 64-bit integer, written in decimal, is parsed back to itself. */
  lemma ParseIDFormatInt(n: int)
    requires InInt64(n)
    ensures ParseID(FormatInt(n)) == (n, None)
  {
    AtoiFormatInt(n);
  }

  /** A decimal integer outside the 64-bit range is refused as out of range. */
  lemma ParseIDOutOfRange(n: int)
    requires !InInt64(n)
    ensures ParseID(FormatInt(n)) == (0, Some(InvalidID(FormatInt(n), ErrRange)))
  {
    AtoiRejectsOutOfRange(n);
  }

  /** A leading '+' is accepted. */
  lemma ParseIDPlusSign(n: nat)
    requires n <= MaxInt64
    ensures ParseID("+" + FormatNat(n)) == (n, None)
  {
    var s := "+" + FormatNat(n);
    assert Magnitude(s) == FormatNat(n);
    DigitsValueFormatNat(n);
  }

  /**
   * Surrounding white space is not trimmed: a leading space is a syntax
   * error, and so is a trailing one unless the digits before it already
   * overflow 64 bits, which ParseUint reports first as a range error.
   */
  lemma ParseIDRejectsPadding(n: int)
    ensures ParseID(" " + FormatInt(n)).1 == Some(InvalidID(" " + FormatInt(n), ErrSyntax))
    ensures -MaxUint64 <= n <= MaxUint64 ==>
      ParseID(FormatInt(n) + " ").1 == Some(InvalidID(FormatInt(n) + " ", ErrSyntax))
    ensures n < -MaxUint64 || MaxUint64 < n ==>
      ParseID(FormatInt(n) + " ").1 == Some(InvalidID(FormatInt(n) + " ", ErrRange))
  {
    var lead := " " + FormatInt(n);
    assert Magnitude(lead) == lead && !IsDigit(lead[0]);
    NotDecimalCause(lead);
    var m: nat := if n < 0 then -n else n;
    var s := FormatInt(n) + " ";
    assert Magnitude(s) == FormatNat(m) + " " by {
      if n < 0 {
        assert s == "-" + (FormatNat(m) + " ");
      } else {
        assert !IsSign(FormatNat(m)[0]);
      }
    }
    assert !IsDigit(Magnitude(s)[|Magnitude(s)| - 1]);
    NotDecimalCause(s);
    NumeralDigits(m, " ");
  }

  /**
   * Digits that overflow 64 bits make a range error whatever follows them:
   * "99999999999999999999x" is out of range, not malformed.
   */
  lemma ParseIDOverflowBeforeJunk(n: nat, rest: string)
    requires n > MaxUint64
    requires rest == [] || !IsDigit(rest[0])
    ensures ParseID(FormatNat(n) + rest) == (0, Some(InvalidID(FormatNat(n) + rest, ErrRange)))
  {
    var s := FormatNat(n) + rest;
    if rest == [] {
      assert s == FormatInt(n);
      AtoiRejectsOutOfRange(n);
    } else {
      assert s[0] == FormatNat(n)[0];
      assert Magnitude(s) == s && !IsDigit(s[|FormatNat(n)|]);
      NotDecimalCause(s);
      NumeralDigits(n, rest);
    }
  }

  /** Text that is no decimal is refused, for a range error exactly when its leading digits overflow. */
  lemma NotDecimalCause(s: string)
    requires !IsDecimal(s)
    ensures ParseID(s) == (0, Some(InvalidID(s, if DigitsOverflow(s) then ErrRange else ErrSyntax)))
  {
  }

  /** The leading digits of a numeral followed by a non-digit are the numeral, with its value. */
  lemma NumeralDigits(m: nat, rest: string)
    requires rest == [] || !IsDigit(rest[0])
    ensures DigitsValue(LeadingDigits(FormatNat(m) + rest)) == m
  {
    LeadingDigitsPrefix(FormatNat(m), rest);
    DigitsValueFormatNat(m);
  }

  // ---------------------------------------------------------------- ValidateCreateInputs

  /** The number of bytes UTF-8 uses for one character. */
  function Utf8Width(c: char): nat {
    if c as int < 0x80 then 1 else if c as int < 0x800 then 2 else if c as int < 0x10000 then 3 else 4
  }

  /** Go's len of a string: its length in UTF-8 bytes. */
  function Utf8Len(s: string): (n: nat)
    ensures |s| <= n <= 4 * |s|
  {
    if s == [] then 0 else Utf8Width(s[0]) + Utf8Len(s[1..])
  }

  const NameTooShort := "name must be at least 3 characters long"
  const DNSTooShort := "dns must be at least 3 characters long"

  /**
   * ValidateCreateInputs: an error exactly when the name or the DNS name is
   * shorter than three bytes; the name is checked first.
   */
  function ValidateCreateInputs(name: string, dns: string): (err: Option<string>)
    ensures err.None? <==> Utf8Len(name) >= 3 && Utf8Len(dns) >= 3
    ensures Utf8Len(name) < 3 ==> err == Some(NameTooShort)
    ensures Utf8Len(name) >= 3 && Utf8Len(dns) < 3 ==> err == Some(DNSTooShort)
  {
    if Utf8Len(name) < 3 then Some(NameTooShort)
    else if Utf8Len(dns) < 3 then Some(DNSTooShort)
    else None
  }

  /** Three characters always suffice, whatever they are. */
  lemma ThreeCharactersSuffice(name: string, dns: string)
    requires |name| >= 3 && |dns| >= 3
    ensures ValidateCreateInputs(name, dns) == None
  {
  }

  /** For ASCII text the byte length is the character count. */
  lemma {:induction false} AsciiLength(s: string)
    requires forall i :: 0 <= i < |s| ==> s[i] as int < 0x80
    ensures Utf8Len(s) == |s|
  {
    if s != [] {
      AsciiLength(s[1..]);
    }
  }

  /**
   * The check counts bytes, not characters: a two-character name passes when
   * one of its characters takes two or more bytes.
   */
  lemma TwoWideCharactersPass(a: char, b: char, dns: string)
    requires a as int >= 0x80
    requires |dns| >= 3
    ensures ValidateCreateInputs([a, b], dns) == None
  {
    assert [a, b][1..] == [b];
    assert [b][1..] == [];
  }

  // ---------------------------------------------------------------- ConfirmAction

  /** One call of ReadString('\n'): the text read, and whether it also returned an error. */
  datatype Read = Read(data: string, failed: bool)

  /** What ReadString returns once the input is exhausted: io.EOF. */
  const EOF := Read("", true)

  datatype Answer = Yes | No | Invalid

  /** The answer a line gives, after lower-casing and trimming white space. */
  function Classify(data: string): Answer {
    var input := TrimSpace(ToLower(data));
    if input == "yes" || input == "y" then Yes
    else if input == "no" || input == "n" then No
    else Invalid
  }

  /** What one read decides: no on a read error, the answer of a valid line, nothing on an invalid one. */
  function Decision(read: Read): Option<bool> {
    if read.failed then Some(false)
    else
      match Classify(read.data)
      case Yes => Some(true)
      case No => Some(false)
      case Invalid => None
  }

  /**
   * The prompt loop of ConfirmAction, for a rule `decide` that says what one
   * read settles: the answer and the number of reads made (the number of
   * prompts printed). An exhausted script reads as EOF, which settles no.
   */
  function Prompting(script: seq<Read>, decide: Read -> Option<bool>): (r: (bool, nat))
    ensures 1 <= r.1 <= |script| + 1
    decreases |script|
  {
    if script == [] then (false, 1)
    else
      match decide(script[0])
      case Some(answer) => (answer, 1)
      case None =>
        var rest := Prompting(script[1..], decide);
        (rest.0, rest.1 + 1)
  }

  /** The body of ConfirmAction's loop for one read: what it returns, if it returns. */
  method ReadAnswer(read: Read) returns (decision: Option<bool>)
    ensures decision == Decision(read)
  {
    if read.failed {
      // "Error reading input: ..." goes to standard error.
      return Some(false);
    }
    var input := TrimSpace(ToLower(read.data));
    if input == "yes" || input == "y" {
      return Some(true);
    }
    if input == "no" || input == "n" {
      return Some(false);
    }
    // "Invalid input. Please type 'yes' or 'no'." and prompt again.
    return None;
  }

  /** The prompt loop of ConfirmAction: prompt, read a line, and stop at a read error or a valid answer. */
  method ConfirmAction(script: seq<Read>) returns (ok: bool, prompts: nat)
    ensures (ok, prompts) == Prompting(script, Decision)
  {
    var i := 0;
    assert script[i..] == script;
    while true
      invariant 0 <= i <= |script|
      invariant Prompting(script, Decision).0 == Prompting(script[i..], Decision).0
      invariant Prompting(script, Decision).1 == Prompting(script[i..], Decision).1 + i
      decreases |script| - i
    {
      var read := if i < |script| then script[i] else EOF;
      var decision := ReadAnswer(read);
      PromptingUnfold(script[i..], Decision, read);
      if decision.Some? {
        return decision.value, i + 1;
      }
      assert script[i..][1..] == script[i + 1..];
      i := i + 1;
    }
  }

  /** One turn of the prompt loop. */
  lemma PromptingUnfold(script: seq<Read>, decide: Read -> Option<bool>, read: Read)
    requires read == if script == [] then EOF else script[0]
    requires decide(EOF) == Some(false)
    ensures decide(read).Some? ==> Prompting(script, decide) == (decide(read).value, 1)
    ensures decide(read).None? ==>
      script != [] && Prompting(script, decide) == (Prompting(script[1..], decide).0, Prompting(script[1..], decide).1 + 1)
  {
  }

  /** `j` is the first read that ends the loop: one that settles the answer, after only unsettling ones. */
  predicate DecidesAt(script: seq<Read>, j: nat, decide: Read -> Option<bool>) {
    && j < |script|
    && decide(script[j]).Some?
    && forall k :: 0 <= k < j ==> decide(script[k]).None?
  }

  /** The first read that settles the answer decides it, after j + 1 prompts. */
  lemma {:induction false} FirstValidAnswerDecides(script: seq<Read>, j: nat, decide: Read -> Option<bool>)
    requires DecidesAt(script, j, decide)
    ensures Prompting(script, decide) == (decide(script[j]).value, j + 1)
    decreases j
  {
    if j > 0 {
      assert DecidesAt(script[1..], j - 1, decide) by {
        forall k | 0 <= k < j - 1
          ensures decide(script[1..][k]).None?
        {
          assert script[1..][k] == script[k + 1];
        }
      }
      FirstValidAnswerDecides(script[1..], j - 1, decide);
      assert script[1..][j - 1] == script[j];
    }
  }

  /** When no read settles the answer, the loop runs into the end of input and answers no. */
  lemma {:induction false} UndecidedMeansNo(script: seq<Read>, decide: Read -> Option<bool>)
    requires forall k :: 0 <= k < |script| ==> decide(script[k]).None?
    ensures Prompting(script, decide) == (false, |script| + 1)
    decreases |script|
  {
    if script != [] {
      assert forall k :: 0 <= k < |script[1..]| ==> script[1..][k] == script[k + 1];
      UndecidedMeansNo(script[1..], decide);
    }
  }

  /** No input after the deciding read is consumed. */
  lemma NoInputAfterAnswer(script: seq<Read>, j: nat, more: seq<Read>, decide: Read -> Option<bool>)
    requires DecidesAt(script, j, decide)
    ensures Prompting(script + more, decide) == Prompting(script, decide)
  {
    assert forall k :: 0 <= k < |script| ==> (script + more)[k] == script[k];
    assert DecidesAt(script + more, j, decide);
    FirstValidAnswerDecides(script, j, decide);
    FirstValidAnswerDecides(script + more, j, decide);
  }

  /** A read error ends the prompt with no, even when the text read with it says yes. */
  lemma ReadErrorMeansNo(data: string, rest: seq<Read>)
    ensures Prompting([Read(data, true)] + rest, Decision) == (false, 1)
  {
  }

  /** White space around the answer does not matter. */
  lemma ClassifyIgnoresSurroundingSpace(pre: string, w: string, post: string)
    requires forall k :: 0 <= k < |pre| ==> IsSpace(pre[k])
    requires forall k :: 0 <= k < |post| ==> IsSpace(post[k])
    requires w == [] || (!IsSpace(w[0]) && !IsSpace(w[|w| - 1]))
    ensures Classify(pre + w + post) == Classify(w)
  {
    var lw := ToLower(w);
    ToLowerAround(pre, w, post);
    assert lw == [] || (!IsSpace(lw[0]) && !IsSpace(lw[|lw| - 1]));
    TrimSpaceAround(pre, lw, post);
    TrimSpaceAround([], lw, []);
    assert [] + lw + [] == lw;
  }

  lemma ToLowerAround(pre: string, w: string, post: string)
    requires forall k :: 0 <= k < |pre| ==> IsSpace(pre[k])
    requires forall k :: 0 <= k < |post| ==> IsSpace(post[k])
    ensures ToLower(pre + w + post) == pre + ToLower(w) + post
  {
    var s, r := pre + w + post, pre + ToLower(w) + post;
    forall k | 0 <= k < |s|
      ensures ToLower(s)[k] == r[k]
    {
      if k < |pre| {
      } else if k < |pre| + |w| {
        assert s[k] == w[k - |pre|];
      } else {
        assert s[k] == post[k - |pre| - |w|];
      }
    }
  }

  /** Letter case does not matter. */
  lemma ClassifyIgnoresCase(w: string)
    ensures Classify(ToLower(w)) == Classify(w)
  {
    assert ToLower(ToLower(w)) == ToLower(w);
  }
}
