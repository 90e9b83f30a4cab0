/** The pass LangChain makes over a chat message given as a `(role, text)` pair to
    `ChatPromptTemplate.from_messages`: the text is read again as an f-string template, and
    `format_messages()` is then called with no variables. A doubled brace stands for one
    brace; any other brace opens a replacement field, which has no value, or is unpaired;
    either way the call raises. */
module PromptTemplate {
  import opened Llm

  predicate IsBrace(c: char) { c == '{' || c == '}' }

  /** The text has no brace at all. */
  predicate NoBraces(s: string) {
    forall k :: 0 <= k < |s| ==> !IsBrace(s[k])
  }

  /** Texts without braces put together hold none. */
  lemma NoBracesAppend(a: string, b: string)
    requires NoBraces(a) && NoBraces(b)
    ensures NoBraces(a + b)
  {
    forall k | 0 <= k < |a + b|
      ensures !IsBrace((a + b)[k])
    {
      if k >= |a| { assert (a + b)[k] == b[k - |a|]; }
    }
  }

  /** The message of the exception raised for a field or an unpaired brace. */
  const TemplateError := "prompt template has a field without a value or an unpaired brace"

  /** `c` in front of a rendered text; an exception passes through. */
  function Prepend(c: char, r: Outcome<string>): Outcome<string> {
    match r
    case Raised(e) => Raised(e)
    case Returned(t) => Returned([c] + t)
  }

  /** `t` in front of a rendered text; an exception passes through. */
  function PrependAll(t: string, r: Outcome<string>): Outcome<string> {
    match r
    case Raised(e) => Raised(e)
    case Returned(u) => Returned(t + u)
  }

  /** The text that reaches the model, scanned left to right as `string.Formatter` does. */
  function Render(s: string): (r: Outcome<string>)
    ensures r.Raised? ==> r.error == TemplateError
    decreases |s|
  {
    if s == [] then Returned([])
    else if IsBrace(s[0]) then
      if |s| >= 2 && s[1] == s[0] then Prepend(s[0], Render(s[2..])) else Raised(TemplateError)
    else Prepend(s[0], Render(s[1..]))
  }

  /** Every brace doubled: the text a template must hold to render as `s`. */
  function Escape(s: string): (r: string)
    ensures |r| >= |s|
  {
    if s == [] then []
    else if IsBrace(s[0]) then [s[0], s[0]] + Escape(s[1..])
    else [s[0]] + Escape(s[1..])
  }

  /** Rendering undoes escaping: an escaped text renders as the original. */
  lemma {:induction false} RenderEscape(s: string)
    ensures Render(Escape(s)) == Returned(s)
    decreases |s|
  {
    if s != [] {
      RenderEscape(s[1..]);
      var e := Escape(s);
      if IsBrace(s[0]) {
        assert e[2..] == Escape(s[1..]);
      } else {
        assert e[1..] == Escape(s[1..]);
      }
      assert s == [s[0]] + s[1..];
    }
  }

  /** A text without braces reaches the model as it is. */
  lemma {:induction false} RenderPlain(s: string)
    requires NoBraces(s)
    ensures Render(s) == Returned(s)
    decreases |s|
  {
    if s != [] {
      RenderPlain(s[1..]);
      assert s == [s[0]] + s[1..];
    }
  }

  /** A text that renders is consumed whole, so whatever follows it is rendered on its own
      and appended. */
  lemma {:induction false} RenderAppend(a: string, b: string)
    requires Render(a).Returned?
    ensures Render(a + b) == PrependAll(Render(a).value, Render(b))
    decreases |a|
  {
    if a == [] {
      assert a + b == b;
      if Render(b).Returned? {
        assert [] + Render(b).value == Render(b).value;
      }
    } else {
      var n := if IsBrace(a[0]) then 2 else 1;
      var ab := a + b;
      assert ab[0] == a[0] && (n == 2 ==> ab[1] == a[1]);
      assert ab[n..] == a[n..] + b;
      assert Render(a) == Prepend(a[0], Render(a[n..]));
      assert Render(ab) == Prepend(a[0], Render(a[n..] + b));
      RenderAppend(a[n..], b);
      PrependAssoc(a[0], Render(a[n..]).value, Render(b));
    }
  }

  /** A character in front of a prefixed rendering. */
  lemma PrependAssoc(c: char, t: string, r: Outcome<string>)
    ensures Prepend(c, PrependAll(t, r)) == PrependAll([c] + t, r)
  {
    if r.Returned? {
      assert [c] + (t + r.value) == ([c] + t) + r.value;
    }
  }

  /** A brace that is not doubled, after a text that renders, makes the whole text raise. */
  lemma LoneBraceRaises(a: string, c: char, b: string)
    requires Render(a).Returned? && IsBrace(c) && (b == [] || b[0] != c)
    ensures Render(a + [c] + b) == Raised(TemplateError)
  {
    RenderAppend(a, [c] + b);
    assert a + [c] + b == a + ([c] + b);
  }

  /** A text that raises still raises with a suffix that does not start with a brace (which
      could pair with a trailing lone one). */
  lemma {:induction false} RaisesBeforePlain(b: string, c: string)
    requires Render(b).Raised? && (c == [] || !IsBrace(c[0]))
    ensures Render(b + c) == Raised(TemplateError)
    decreases |b|
  {
    if IsBrace(b[0]) {
      if |b| >= 2 && b[1] == b[0] {
        assert (b + c)[2..] == b[2..] + c;
        RaisesBeforePlain(b[2..], c);
      }
    } else {
      assert (b + c)[1..] == b[1..] + c;
      RaisesBeforePlain(b[1..], c);
    }
  }

  /** A text that raises and does not start with a brace raises after any prefix: a brace
      left open at the end of the prefix cannot pair with it. */
  lemma {:induction false} RaisesAfterAnything(a: string, b: string)
    requires Render(b).Raised? && b != [] && !IsBrace(b[0])
    ensures Render(a + b) == Raised(TemplateError)
    decreases |a|
  {
    var ab := a + b;
    if a == [] {
      assert ab == b;
    } else if IsBrace(a[0]) {
      if |a| >= 2 && a[1] == a[0] {
        assert ab[1] == a[1] && ab[2..] == a[2..] + b;
        RaisesAfterAnything(a[2..], b);
      } else if |a| >= 2 {
        assert ab[1] == a[1];
      } else {
        assert ab[1] == b[0];
      }
    } else {
      assert ab[1..] == a[1..] + b;
      RaisesAfterAnything(a[1..], b);
    }
  }

  /** `from_messages` over the system and human texts, then `format_messages()`: both
      messages rendered, or the exception. */
  function RenderPrompt(p: Prompt): (r: Outcome<Prompt>)
    ensures r.Returned? <==> Render(p.system).Returned? && Render(p.human).Returned?
    ensures r.Returned? ==> r.value == Prompt(Render(p.system).value, Render(p.human).value)
  {
    match Render(p.system)
    case Raised(e) => Raised(e)
    case Returned(system) =>
      match Render(p.human)
      case Raised(e) => Raised(e)
      case Returned(human) => Returned(Prompt(system, human))
  }

  /** `llm.invoke(prompt.format_messages())` for a prompt built from the two texts. */
  function Invoke(llm: Prompt -> Outcome<string>, p: Prompt): Outcome<string> {
    match RenderPrompt(p)
    case Raised(e) => Raised(e)
    case Returned(rendered) => llm(rendered)
  }

  /** A template that raises never reaches the model, whatever the model is; one that
      renders sends the model the rendered texts. */
  lemma InvokeSpec(llm: Prompt -> Outcome<string>, p: Prompt)
    ensures RenderPrompt(p).Raised? ==> Invoke(llm, p) == Raised(RenderPrompt(p).error)
    ensures RenderPrompt(p).Returned? ==> Invoke(llm, p) == llm(RenderPrompt(p).value)
  {
  }

  /** Texts without braces reach the model verbatim. */
  lemma PlainPromptVerbatim(llm: Prompt -> Outcome<string>, p: Prompt)
    requires NoBraces(p.system) && NoBraces(p.human)
    ensures Invoke(llm, p) == llm(p)
  {
    RenderPlain(p.system);
    RenderPlain(p.human);
  }

  /** A human message whose variable part raises, after a fixed head without braces, makes
      the call raise before the model. */
  lemma HumanPartRaises(llm: Prompt -> Outcome<string>, p: Prompt, head: string, part: string)
    requires p.human == head + part && NoBraces(head) && Render(part).Raised?
    ensures Invoke(llm, p) == Raised(TemplateError)
  {
    RenderPlain(head);
    RenderAppend(head, part);
  }
}
