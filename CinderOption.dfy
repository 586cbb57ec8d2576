/** The run options of a CINDER input deck (cinderOption): five real and six
    integer settings, set from `tag value` lines of the control file. */
module CinderSettings {
  import opened Common

  /** static_cast<int> on a real: truncation toward zero. Values outside
      the range of int are undefined behaviour in the source and are not
      modelled. */
  function Trunc(x: real): (r: int)
    ensures x >= 0.0 ==> 0.0 <= r as real <= x < r as real + 1.0
    ensures x < 0.0 ==> r as real - 1.0 < x <= r as real <= 0.0
  {
    if x >= 0.0 then x.Floor else -((-x).Floor)
  }

  /** Truncation keeps integers and is odd. */
  lemma TruncProperties(x: real, n: int)
    ensures Trunc(n as real) == n
    ensures Trunc(-x) == -Trunc(x)
  {
  }

  /** The eleven settings. */
  datatype Options = Options(
    tst: real, signif: real, epsm: real, epsn: real, expomax: real,
    kchn: int, klib: int, nfe: int, nlintl: int, nosame: int, russ: int)

  /** The constructor's settings (cinderOption.cxx:50-53). */
  const Default: Options :=
    Options(0.00001, 0.0000000000000001, 0.0, 0.0, 0.0, 0, 0, 3, 2, 0, 1)

  /** The names addString dispatches on. */
  const Tags: set<string> := {"tst", "signif", "kchn", "klib", "nfe", "nlintl", "nosame", "russ"}

  /** Every setting, by its name, as a real. */
  function Field(o: Options, name: string): real
  {
    match name
    case "tst" => o.tst
    case "signif" => o.signif
    case "epsm" => o.epsm
    case "epsn" => o.epsn
    case "expomax" => o.expomax
    case "kchn" => o.kchn as real
    case "klib" => o.klib as real
    case "nfe" => o.nfe as real
    case "nlintl" => o.nlintl as real
    case "nosame" => o.nosame as real
    case "russ" => o.russ as real
    case _ => 0.0
  }

  /** The eleven setting names. */
  const Names: set<string> :=
    {"tst", "signif", "epsm", "epsn", "expomax", "kchn", "klib", "nfe", "nlintl", "nosame", "russ"}

  /** The value the first token of the line gives, as StrFunc::section
      reads it into a double. */
  function Leading(line: seq<Tok>): Option<real>
  {
    if |line| > 0 then line[0].num else None
  }

  /** addString as written (cinderOption.cxx:103-137): the `kchn` tag
      clears kchn whatever the value, and the `klib` tag sets kchn rather
      than klib. */
  function AddStringAsWritten(o: Options, tag: string, line: seq<Tok>): Options
  {
    match Leading(line)
    case None => o
    case Some(v) =>
      if tag == "tst" then o.(tst := v)
      else if tag == "signif" then o.(signif := v)
      else if tag == "kchn" then o.(kchn := 0)
      else if tag == "klib" then o.(kchn := Trunc(v))
      else if tag == "nfe" then o.(nfe := Trunc(v))
      else if tag == "nlintl" then o.(nlintl := Trunc(v))
      else if tag == "nosame" then o.(nosame := Trunc(v))
      else if tag == "russ" then o.(russ := Trunc(v))
      else o
  }

  /** As written, `klib 1` leaves klib at its default and sets kchn; `kchn 1`
      leaves kchn at 0. */
  lemma KlibSetsKchn()
    ensures var line := [Tok("1", Some(1.0))];
      var o := AddStringAsWritten(Default, "klib", line);
      o.klib == 0 && o.kchn == 1
      && AddStringAsWritten(Default, "kchn", line).kchn == 0
  {
  }

  /** addString as evidently intended: each integer tag sets its own
      setting to the value truncated. */
  function AddStringSpec(o: Options, tag: string, line: seq<Tok>): Options
  {
    match Leading(line)
    case None => o
    case Some(v) =>
      if tag == "tst" then o.(tst := v)
      else if tag == "signif" then o.(signif := v)
      else if tag == "kchn" then o.(kchn := Trunc(v))
      else if tag == "klib" then o.(klib := Trunc(v))
      else if tag == "nfe" then o.(nfe := Trunc(v))
      else if tag == "nlintl" then o.(nlintl := Trunc(v))
      else if tag == "nosame" then o.(nosame := Trunc(v))
      else if tag == "russ" then o.(russ := Trunc(v))
      else o
  }

  /** The real-valued tags take the value as read. */
  predicate RealTag(tag: string) { tag == "tst" || tag == "signif" }

  /** A tag with a value sets the setting of that name, to the value itself
      for tst and signif and to its truncation otherwise, and changes no
      other setting. */
  lemma {:induction false} AddStringSetsItsField(o: Options, tag: string, line: seq<Tok>, name: string)
    requires tag in Tags && Leading(line).Some? && name in Names
    ensures var v := Leading(line).value;
      Field(AddStringSpec(o, tag, line), name)
        == if name != tag then Field(o, name) else if RealTag(tag) then v else Trunc(v) as real
  {
  }

  /** No number after the tag, or a tag that is not a setting's name,
      changes nothing. */
  lemma AddStringIgnores(o: Options, tag: string, line: seq<Tok>)
    requires Leading(line).None? || tag !in Tags
    ensures AddStringSpec(o, tag, line) == o
    ensures AddStringAsWritten(o, tag, line) == o
  {
  }

  /** addString never touches epsm, epsn or expomax, so they keep the
      constructor's zero. */
  lemma AddStringKeepsLimits(o: Options, tag: string, line: seq<Tok>)
    ensures var r := AddStringSpec(o, tag, line);
      r.epsm == o.epsm && r.epsn == o.epsn && r.expomax == o.expomax
  {
  }

  /** The two versions differ only on the kchn and klib tags. */
  lemma AsWrittenAgrees(o: Options, tag: string, line: seq<Tok>)
    requires tag != "kchn" && tag != "klib"
    ensures AddStringAsWritten(o, tag, line) == AddStringSpec(o, tag, line)
  {
  }

  /** The options object. */
  class CinderOption {
    var tst: real
    var signif: real
    var epsm: real
    var epsn: real
    var expomax: real
    var kchn: int
    var klib: int
    var nfe: int
    var nlintl: int
    var nosame: int
    var russ: int

    function Value(): Options
      reads this
    {
      Options(tst, signif, epsm, epsn, expomax, kchn, klib, nfe, nlintl, nosame, russ)
    }

    /** The constructor (cinderOption.cxx:50-57). */
    constructor ()
      ensures Value() == Default
    {
      tst, signif, epsm, epsn, expomax := 0.00001, 0.0000000000000001, 0.0, 0.0, 0.0;
      kchn, klib, nfe, nlintl, nosame, russ := 0, 0, 3, 2, 0, 1;
    }

    /** The assignment operator (cinderOption.cxx:70-93). */
    method Assign(a: CinderOption)
      modifies this
      ensures Value() == old(a.Value())
    {
      if a != this {
        tst, signif, epsm, epsn, expomax := a.tst, a.signif, a.epsm, a.epsn, a.expomax;
        kchn, klib, nfe, nlintl, nosame, russ := a.kchn, a.klib, a.nfe, a.nlintl, a.nosame, a.russ;
      }
    }

    /** addString (cinderOption.cxx:103-137), with the kchn and klib tags
        setting their own settings. An unknown tag is logged and ignored. */
    method AddString(tag: string, line: seq<Tok>)
      modifies this
      ensures Value() == AddStringSpec(old(Value()), tag, line)
    {
      if |line| > 0 && line[0].num.Some? {
        var v := line[0].num.value;
        if tag == "tst" {
          tst := v;
        } else if tag == "signif" {
          signif := v;
        } else if tag == "kchn" {
          kchn := Trunc(v);
        } else if tag == "klib" {
          klib := Trunc(v);
        } else if tag == "nfe" {
          nfe := Trunc(v);
        } else if tag == "nlintl" {
          nlintl := Trunc(v);
        } else if tag == "nosame" {
          nosame := Trunc(v);
        } else if tag == "russ" {
          russ := Trunc(v);
        }
      }
    }
  }
}
