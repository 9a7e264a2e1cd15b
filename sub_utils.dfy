/** The helpers of sub_utils.py: the error kinds, the cpf formatter and the
    naming of save files. SUB.py imports nothing from sub_utils.py; it
    defines its own cpf_string and names its saves inside __save_sys, with
    the same code, so the model of SUB.py uses the single definitions
    here. */
module SubUtils {

  /** The exception classes sub_utils.py declares, as one error kind. No
      file raises or catches them: this is a declaration only. */
  datatype LedgerError = PersonNonExistent | BankNonExistent | AccountNonExistent | EmptyField

  // ---------------------------------------------------------------------
  // Decimal digits: Python's str() of an integer and its inverse.

  predicate IsDigit(c: char) {
    '0' <= c <= '9'
  }

  predicate AllDigits(s: string) {
    forall i :: 0 <= i < |s| ==> IsDigit(s[i])
  }

  function DigitChar(d: nat): (c: char)
    requires d < 10
    ensures IsDigit(c) && c as int - '0' as int == d
  {
    ('0' as int + d) as char
  }

  function Pow10(k: nat): (p: nat)
    ensures p >= 1
  {
    if k == 0 then 1 else 10 * Pow10(k - 1)
  }

  /** str(n) for n >= 0: the shortest decimal numeral of n. */
  function NatToString(n: nat): (s: string)
    ensures |s| >= 1 && AllDigits(s)
    ensures |s| > 1 ==> s[0] != '0'
    decreases n
  {
    if n < 10 then [DigitChar(n)] else NatToString(n / 10) + [DigitChar(n % 10)]
  }

  /** str(n) for any integer: a minus sign before the digits of -n. */
  function IntToString(n: int): string {
    if n < 0 then "-" + NatToString(-n) else NatToString(n)
  }

  /** The value of a numeral, read most significant digit first. */
  function ParseDigits(s: string): nat
    requires AllDigits(s)
  {
    if s == [] then 0
    else 10 * ParseDigits(s[..|s| - 1]) + (s[|s| - 1] as int - '0' as int)
  }

  /** "0" * k in Python: empty when k is not positive. */
  function Zeros(k: int): (z: string)
    ensures |z| == if k > 0 then k else 0
    ensures forall i :: 0 <= i < |z| ==> z[i] == '0'
  {
    if k <= 0 then "" else "0" + Zeros(k - 1)
  }

  lemma {:induction false} ParseNatToString(n: nat)
    ensures ParseDigits(NatToString(n)) == n
    decreases n
  {
    if n >= 10 {
      var s := NatToString(n);
      assert s[..|s| - 1] == NatToString(n / 10);
      ParseNatToString(n / 10);
    }
  }

  lemma {:induction false} ParseZerosPrefix(k: nat, s: string)
    requires AllDigits(s)
    ensures AllDigits(Zeros(k) + s)
    ensures ParseDigits(Zeros(k) + s) == ParseDigits(s)
    decreases |s| + k
  {
    var z := Zeros(k);
    if s == [] {
      assert z + s == z;
      if k > 0 {
        assert z[..|z| - 1] == Zeros(k - 1);
        ParseZerosPrefix(k - 1, s);
        assert Zeros(k - 1) + s == Zeros(k - 1);
      }
    } else {
      var t := s[..|s| - 1];
      assert (z + s)[..|z + s| - 1] == z + t;
      ParseZerosPrefix(k, t);
    }
  }

  /** The numeral of n has at most k digits exactly when n < 10^k. */
  lemma {:induction false} DigitCount(n: nat, k: nat)
    requires k >= 1
    ensures |NatToString(n)| <= k <==> n < Pow10(k)
    decreases k
  {
    if n >= 10 && k > 1 {
      DigitCount(n / 10, k - 1);
    } else if n >= 10 {
      assert Pow10(1) == 10;
      assert |NatToString(n)| == |NatToString(n / 10)| + 1;
    }
  }

  // ---------------------------------------------------------------------
  // cpf_string

  /** The width a cpf is padded to. */
  const CpfDigits := 11

  /** str(cpf) left-padded with zeros to eleven characters. */
  function PaddedCpf(cpf: int): (p: string)
    ensures |p| >= CpfDigits
  {
    var converted := IntToString(cpf);
    Zeros(CpfDigits - |converted|) + converted
  }

  /** cpf_string: pad to eleven characters, then cut into 3.3.3-2. */
  function CpfString(cpf: int): (r: string)
    ensures |r| == 14
    ensures r[3] == '.' && r[7] == '.' && r[11] == '-'
  {
    var p := PaddedCpf(cpf);
    p[0..3] + "." + p[3..6] + "." + p[6..9] + "-" + p[9..11]
  }

  /** The formatted cpf with its three separators taken out. */
  function Unformat(r: string): string
    requires |r| == 14
  {
    r[0..3] + r[4..7] + r[8..11] + r[12..14]
  }

  lemma UnformatCpf(cpf: int)
    ensures Unformat(CpfString(cpf)) == PaddedCpf(cpf)[..CpfDigits]
  {
    var p := PaddedCpf(cpf);
    var r := CpfString(cpf);
    assert r[0..3] == p[0..3] && r[4..7] == p[3..6] && r[8..11] == p[6..9] && r[12..14] == p[9..11];
    assert p[..CpfDigits] == p[0..3] + p[3..6] + p[6..9] + p[9..11];
  }

  /** For a cpf of at most eleven digits, the separators are the only
      non-digits, the zeros added are 11 minus its digit count, and reading
      the digits back gives the cpf. */
  lemma CpfRoundTrip(cpf: int)
    requires 0 <= cpf < Pow10(CpfDigits)
    ensures Unformat(CpfString(cpf)) == Zeros(CpfDigits - |NatToString(cpf)|) + NatToString(cpf)
    ensures |NatToString(cpf)| <= CpfDigits
    ensures AllDigits(Unformat(CpfString(cpf)))
    ensures ParseDigits(Unformat(CpfString(cpf))) == cpf
  {
    DigitCount(cpf, CpfDigits);
    UnformatCpf(cpf);
    var p := PaddedCpf(cpf);
    assert |p| == CpfDigits;
    assert p[..CpfDigits] == p;
    ParseZerosPrefix(CpfDigits - |NatToString(cpf)|, NatToString(cpf));
    ParseNatToString(cpf);
  }

  /** Every character of the formatted cpf other than the separators is a
      digit, for any cpf that is not negative. */
  lemma CpfDigitsOnly(cpf: nat)
    ensures AllDigits(Unformat(CpfString(cpf)))
  {
    UnformatCpf(cpf);
    var p := PaddedCpf(cpf);
    assert AllDigits(p);
  }

  /** A cpf of more than eleven digits gets no padding and only its first
      eleven digits appear. */
  lemma CpfTruncates(cpf: int)
    requires cpf >= Pow10(CpfDigits)
    ensures |NatToString(cpf)| > CpfDigits
    ensures Unformat(CpfString(cpf)) == NatToString(cpf)[..CpfDigits]
  {
    DigitCount(cpf, CpfDigits);
    UnformatCpf(cpf);
    assert PaddedCpf(cpf) == NatToString(cpf);
  }

  // ---------------------------------------------------------------------
  // Save files

  const SavePrefix := "SAVE_"
  const SaveExtension := ".syss"
  const SaveFolder := "saves/"

  /** The name a first save takes from its date stamp. */
  function SaveName(stamp: string): (name: string)
    ensures |name| == |stamp| + 10
    ensures name[..5] == SavePrefix && name[5..|name| - 5] == stamp
    ensures name[|name| - 5..] == SaveExtension
  {
    SavePrefix + stamp + SaveExtension
  }

  /** The save-name step of save_sys on the pair (has_save, save_name). */
  function NextSaveName(hasSave: bool, saveName: string, stamp: string): string {
    if hasSave then saveName else SaveName(stamp)
  }

  /** Saving a second time keeps the name the first save chose. */
  lemma SaveNameIdempotent(hasSave: bool, saveName: string, stamp1: string, stamp2: string)
    ensures NextSaveName(true, NextSaveName(hasSave, saveName, stamp1), stamp2)
         == NextSaveName(hasSave, saveName, stamp1)
  {
  }

  /** The object save_sys receives: the two fields it updates. */
  class SaveSlot {
    var hasSave: bool
    var saveName: string

    constructor ()
      ensures !hasSave && saveName == ""
    {
      hasSave := false;
      saveName := "";
    }

    /** save_sys: name the save on the first call, then return the path the
        snapshot is written to. */
    method SaveSys(stamp: string) returns (path: string)
      modifies this
      ensures hasSave
      ensures saveName == NextSaveName(old(hasSave), old(saveName), stamp)
      ensures path == SaveFolder + saveName
    {
      if !hasSave {
        saveName := SaveName(stamp);
        hasSave := true;
      }
      path := SaveFolder + saveName;
    }
  }
}
