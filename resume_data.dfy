/**
 * The resume record the form assembles (`resume_data`), Python's `dict.get`
 * on an entry, and the normalisation of the comma-separated skills text.
 */
module ResumeData {
  import opened PyText

  /** A work or education entry: a dict from field name to the text typed in. */
  type Entry = map<string, string>

  datatype Contact = Contact(email: string, phone: string, linkedin: string, github: string)

  datatype Resume = Resume(
    name: string,
    contact: Contact,
    workExperience: seq<Entry>,
    education: seq<Entry>,
    skills: seq<string>)

  /** Which app.py is modelled: the file as written, or the file with its
      two defects corrected (`Spacer` imported; the LaTeX title line
      written `\section*{\LARGE {{ name }} }`). */
  datatype Revision = AsWritten | Corrected

  /** `entry.get(key, default)`: the default is used only when the key is absent. */
  function Get(e: Entry, key: string, default: string): (v: string)
    ensures key in e ==> v == e[key]
    ensures key !in e ==> v == default
  {
    if key in e then e[key] else default
  }

  /** `[p.strip() for p in pieces if p.strip()]`. */
  function StrippedNonBlank(pieces: seq<string>): (r: seq<string>)
    ensures |r| <= |pieces|
    ensures forall k | 0 <= k < |r| :: r[k] != ""
  {
    if pieces == [] then []
    else
      var t := Strip(pieces[0]);
      (if t != "" then [t] else []) + StrippedNonBlank(pieces[1..])
  }

  /** Every kept piece is already stripped. */
  lemma {:induction false} StrippedNonBlankFixed(pieces: seq<string>)
    ensures forall k | 0 <= k < |StrippedNonBlank(pieces)| :: Strip(StrippedNonBlank(pieces)[k]) == StrippedNonBlank(pieces)[k]
  {
    if pieces != [] {
      var t := Strip(pieces[0]);
      var head: seq<string> := if t != "" then [t] else [];
      var rest := StrippedNonBlank(pieces[1..]);
      StripIdempotent(pieces[0]);
      StrippedNonBlankFixed(pieces[1..]);
      assert StrippedNonBlank(pieces) == head + rest;
      forall k | 0 <= k < |head + rest| ensures Strip((head + rest)[k]) == (head + rest)[k] {
        if k >= |head| {
          assert (head + rest)[k] == rest[k - |head|];
        }
      }
    }
  }

  /** The skills list of `resume_data`: the skills text split on `,`, each
      piece stripped, the blank ones dropped. */
  function NormaliseSkills(text: string): (skills: seq<string>)
    ensures |skills| <= |Split(text, ',')|
    ensures forall k | 0 <= k < |skills| :: skills[k] != ""
  {
    StrippedNonBlank(Split(text, ','))
  }

  lemma {:induction false} StrippedNonBlankConcat(a: seq<string>, b: seq<string>)
    ensures StrippedNonBlank(a + b) == StrippedNonBlank(a) + StrippedNonBlank(b)
  {
    if a == [] {
      ConcatEmpty(a, b);
    } else {
      var t := Strip(a[0]);
      var head: seq<string> := if t != "" then [t] else [];
      var ra, rb := StrippedNonBlank(a[1..]), StrippedNonBlank(b);
      ConcatTail(a, b);
      assert StrippedNonBlank(a + b) == head + StrippedNonBlank(a[1..] + b);
      StrippedNonBlankConcat(a[1..], b);
      assert StrippedNonBlank(a) == head + ra;
      ConcatAssoc(head, ra, rb);
    }
  }

  lemma {:induction false} StrippedNonBlankKeepsOut(pieces: seq<string>, c: char)
    requires forall k | 0 <= k < |pieces| :: c !in pieces[k]
    ensures forall k | 0 <= k < |StrippedNonBlank(pieces)| :: c !in StrippedNonBlank(pieces)[k]
  {
    if pieces != [] {
      StripKeepsOut(pieces[0], c);
      StrippedNonBlankKeepsOut(pieces[1..], c);
    }
  }

  /** Every normalised skill is already stripped. */
  lemma SkillsStripped(text: string)
    ensures forall k | 0 <= k < |NormaliseSkills(text)| :: Strip(NormaliseSkills(text)[k]) == NormaliseSkills(text)[k]
  {
    StrippedNonBlankFixed(Split(text, ','));
  }

  /** No normalised skill holds a comma. */
  lemma SkillsHaveNoComma(text: string)
    ensures forall k | 0 <= k < |NormaliseSkills(text)| :: ',' !in NormaliseSkills(text)[k]
  {
    StrippedNonBlankKeepsOut(Split(text, ','), ',');
  }

  /** Skills keep the order of the text: the skills of `a,b` are the skills
      of `a` followed by those of `b`. */
  lemma SkillsKeepOrder(a: string, b: string)
    ensures NormaliseSkills(a + "," + b) == NormaliseSkills(a) + NormaliseSkills(b)
  {
    SplitConcat(a, b, ',');
    StrippedNonBlankConcat(Split(a, ','), Split(b, ','));
  }

  /** A piece without a comma contributes its stripped text, or nothing
      when that is blank. */
  lemma SkillOfPiece(s: string)
    requires ',' !in s
    ensures NormaliseSkills(s) == if Strip(s) == "" then [] else [Strip(s)]
  {
    SplitWhole(s, ',');
  }
}
