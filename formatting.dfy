/**
 * Python's `str.format(**kwargs)` over a template that contains no
 * `{{`/`}}` escapes and no format specifications: the template is a
 * sequence of literal text and named replacement fields, and formatting
 * substitutes every field in ONE left-to-right pass. Keyword arguments
 * that no field names are ignored; the first field without an argument
 * raises KeyError.
 */
module Formatting {
  import opened Outcomes

  /** The keyword names the core's templates and `format` calls use. */
  datatype Placeholder =
    | PromptArg | ToneArg | SenderNameArg | SenderProfessionArg | LanguageArg | AdditionalContextArg
    | HistorySectionArg | CurrentDocumentArg | RefinementPromptArg | DocTypeArg
  {
    /** The Python identifier of the keyword. */
    function Name(): string {
      match this
      case PromptArg => "prompt"
      case ToneArg => "tone"
      case SenderNameArg => "sender_name"
      case SenderProfessionArg => "sender_profession"
      case LanguageArg => "language"
      case AdditionalContextArg => "additional_context"
      case HistorySectionArg => "history_section"
      case CurrentDocumentArg => "current_document"
      case RefinementPromptArg => "refinement_prompt"
      case DocTypeArg => "doc_type"
    }
  }

  datatype Segment = Lit(text: string) | Field(name: Placeholder)

  type Template = seq<Segment>

  /** The names of the replacement fields of `t`, in order of appearance. */
  function FieldNames(t: Template): seq<Placeholder> {
    if t == [] then [] else (if t[0].Field? then [t[0].name] else []) + FieldNames(t[1..])
  }

  /** Every replacement field of `t` has an argument. */
  predicate Binds(t: Template, kwargs: map<Placeholder, string>) {
    forall n :: n in FieldNames(t) ==> n in kwargs
  }

  /** The text of one segment; a field without an argument contributes nothing (`Format` raises there). */
  function Piece(s: Segment, kwargs: map<Placeholder, string>): string {
    match s
    case Lit(text) => text
    case Field(name) => if name in kwargs then kwargs[name] else ""
  }

  /** The text of `t` with every field replaced by its argument. */
  function Fill(t: Template, kwargs: map<Placeholder, string>): string {
    if t == [] then "" else Piece(t[0], kwargs) + Fill(t[1..], kwargs)
  }

  /** `template.format(**kwargs)`. */
  function Format(t: Template, kwargs: map<Placeholder, string>): (r: Result<string>)
    ensures r.Ok? <==> Binds(t, kwargs)
    ensures r.Ok? ==> r.value == Fill(t, kwargs)
    ensures r.Err? ==> exists i :: 0 <= i < |t| && t[i].Field? && t[i].name !in kwargs
                                   && r.error == KeyError(t[i].name.Name())
                                   && Binds(t[..i], kwargs)
  {
    if t == [] then Ok("")
    else if t[0].Field? && t[0].name !in kwargs then
      assert t[..0] == [];
      Err(KeyError(t[0].name.Name()))
    else
      match Format(t[1..], kwargs)
      case Ok(rest) => Ok(Piece(t[0], kwargs) + rest)
      case Err(e) =>
        ghost var j :| 0 <= j < |t[1..]| && t[1..][j].Field? && t[1..][j].name !in kwargs
                       && e == KeyError(t[1..][j].name.Name()) && Binds(t[1..][..j], kwargs);
        assert t[..j + 1] == [t[0]] + t[1..][..j];
        Err(e)
  }

  lemma {:induction false} FieldNamesAppend(t1: Template, t2: Template)
    ensures FieldNames(t1 + t2) == FieldNames(t1) + FieldNames(t2)
  {
    if t1 == [] {
      assert t1 + t2 == t2;
    } else {
      var head := if t1[0].Field? then [t1[0].name] else [];
      assert (t1 + t2)[0] == t1[0];
      assert (t1 + t2)[1..] == t1[1..] + t2;
      FieldNamesAppend(t1[1..], t2);
      assert FieldNames(t1 + t2) == head + (FieldNames(t1[1..]) + FieldNames(t2));
      assert FieldNames(t1) == head + FieldNames(t1[1..]);
    }
  }

  lemma {:induction false} FillAppend(t1: Template, t2: Template, kwargs: map<Placeholder, string>)
    ensures Fill(t1 + t2, kwargs) == Fill(t1, kwargs) + Fill(t2, kwargs)
  {
    if t1 == [] {
      assert t1 + t2 == t2;
    } else {
      assert (t1 + t2)[1..] == t1[1..] + t2;
      FillAppend(t1[1..], t2, kwargs);
    }
  }

  /**
   * Single pass: a field's argument lands verbatim between the text of
   * the segments before it and the text of the segments after it, whatever
   * braces it contains.
   */
  lemma FillFieldVerbatim(t: Template, i: nat, kwargs: map<Placeholder, string>)
    requires i < |t| && t[i].Field? && t[i].name in kwargs
    ensures Fill(t, kwargs) == Fill(t[..i], kwargs) + kwargs[t[i].name] + Fill(t[i + 1..], kwargs)
  {
    assert t == t[..i] + ([t[i]] + t[i + 1..]);
    assert ([t[i]] + t[i + 1..])[1..] == t[i + 1..];
    FillAppend(t[..i], [t[i]] + t[i + 1..], kwargs);
  }

  /** Only the arguments of the template's own fields matter. */
  lemma {:induction false} FillDependsOnlyOnFields(t: Template, k1: map<Placeholder, string>, k2: map<Placeholder, string>)
    requires Binds(t, k1) && Binds(t, k2)
    requires forall n :: n in FieldNames(t) ==> k1[n] == k2[n]
    ensures Fill(t, k1) == Fill(t, k2)
  {
    if t != [] {
      FillDependsOnlyOnFields(t[1..], k1, k2);
    }
  }

  /** Literal text followed by one replacement field: the unit templates are written in. */
  function TextThen(text: string, name: Placeholder): Template {
    [Lit(text), Field(name)]
  }

  lemma TextThenFields(text: string, name: Placeholder)
    ensures FieldNames(TextThen(text, name)) == [name]
  {
    assert TextThen(text, name)[1..] == [Field(name)];
    assert [Field(name)][1..] == [];
    assert FieldNames([Field(name)]) == [name];
  }

  lemma TextThenFill(text: string, name: Placeholder, kwargs: map<Placeholder, string>)
    requires name in kwargs
    ensures Fill(TextThen(text, name), kwargs) == text + kwargs[name]
  {
    assert TextThen(text, name)[1..] == [Field(name)];
    assert [Field(name)][1..] == [];
    assert Fill([Field(name)], kwargs) == Piece(Field(name), kwargs);
  }

  predicate NoOpenBrace(s: string) {
    forall i :: 0 <= i < |s| ==> s[i] != '{'
  }

  /**
   * No replacement marker survives formatting: when neither the literal
   * text nor any argument carries a `{`, the result carries none either.
   */
  lemma {:induction false} NoMarkerSurvives(t: Template, kwargs: map<Placeholder, string>)
    requires Binds(t, kwargs)
    requires forall i :: 0 <= i < |t| && t[i].Lit? ==> NoOpenBrace(t[i].text)
    requires forall n :: n in kwargs ==> NoOpenBrace(kwargs[n])
    ensures NoOpenBrace(Fill(t, kwargs))
  {
    if t != [] {
      NoMarkerSurvives(t[1..], kwargs);
    }
  }
}
