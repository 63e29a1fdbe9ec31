/** The glue of make_image (highlighter.py:91-99) and get_formatter
    (highlighter.py:32-53).  The lexer registry lookup find_lexer_class and
    the content classifier guess_lexer are abstract functions over an
    abstract lexer type L; highlighting and the perspective transform are not
    part of this model, so make_image is modelled up to the job it hands to
    highlight and transform. */
module LexerChoice {
  import opened Wrappers
  import Lines
  import Matrices

  /** The two colour themes of get_formatter. */
  datatype Theme = Light | Dark

  /** The options get_formatter passes to CustomFormatter. */
  datatype FormatterOptions = FormatterOptions(
    style: string,
    fontName: string,
    fontSize: nat,
    lineNumbers: bool,
    lineNumberBg: string,
    lineNumberFg: string,
    imagePad: nat)

  /** get_formatter(dark) picks the dark theme exactly when `dark` is set. */
  function ThemeFor(dark: bool): (t: Theme)
    ensures t.Dark? <==> dark
  {
    if dark then Dark else Light
  }

  /** The options of each theme: both draw line numbers in 14-point DejaVu
      Sans Mono with an 8-pixel pad; the dark one uses the monokai style on a
      #272822 gutter, the light one tango on a #e0e0e0 gutter. */
  function Options(t: Theme): (o: FormatterOptions)
    ensures o.fontName == "DejaVu Sans Mono" && o.fontSize == 14 && o.imagePad == 8 && o.lineNumbers
    ensures t.Dark? ==> o.style == "monokai" && o.lineNumberBg == "#272822" && o.lineNumberFg == "#888888"
    ensures t.Light? ==> o.style == "tango" && o.lineNumberBg == "#e0e0e0" && o.lineNumberFg == "#999999"
  {
    match t
    case Dark => FormatterOptions("monokai", "DejaVu Sans Mono", 14, true, "#272822", "#888888", 8)
    case Light => FormatterOptions("tango", "DejaVu Sans Mono", 14, true, "#e0e0e0", "#999999", 8)
  }

  /** get_formatter(dark): the dark theme's options exactly when `dark` is
      set, the light theme's otherwise. */
  function GetFormatter(dark: bool): (o: FormatterOptions)
    ensures dark <==> o.style == "monokai"
    ensures o == Options(if dark then Dark else Light)
  {
    Options(ThemeFor(dark))
  }

  /** The two themes differ only in style and gutter colours: both draw line
      numbers in 14-point DejaVu Sans Mono with an 8-pixel pad. */
  lemma ThemesShareLayout(dark: bool)
    ensures GetFormatter(dark).fontName == GetFormatter(!dark).fontName
    ensures GetFormatter(dark).fontSize == GetFormatter(!dark).fontSize
    ensures GetFormatter(dark).imagePad == GetFormatter(!dark).imagePad
    ensures GetFormatter(dark).lineNumbers && GetFormatter(!dark).lineNumbers
    ensures GetFormatter(dark).style != GetFormatter(!dark).style
    ensures GetFormatter(dark).lineNumberBg != GetFormatter(!dark).lineNumberBg
  {
  }

  /** find_lexer_class(lang) returned None and make_image called it. */
  datatype LexerError = NoneNotCallable(lang: string)

  /** `if lang:`: a hint counts only when present and not empty. */
  predicate HasHint(lang: Option<string>) {
    lang.Some? && lang.value != ""
  }

  /** The lexer make_image uses (highlighter.py:92-96).  A hint goes to the
      registry and nowhere else; only a missing or empty hint lets the
      classifier look at the content. */
  function ChooseLexer<L>(content: string, lang: Option<string>,
                          find: string -> Option<L>, guess: string -> L): (r: Result<L, LexerError>)
    ensures !HasHint(lang) ==> r == Success(guess(content))
    ensures HasHint(lang) ==> (r.Success? <==> find(lang.value).Some?)
    ensures HasHint(lang) && r.Success? ==> r.value == find(lang.value).value
    ensures HasHint(lang) && r.Failure? ==> r.error == NoneNotCallable(lang.value)
  {
    if HasHint(lang) then
      match find(lang.value)
      case Some(cls) => Success(cls)
      case None => Failure(NoneNotCallable(lang.value))
    else Success(guess(content))
  }

  /** With a hint the guesser is never consulted: any two guessers give the
      same outcome, an unknown hint included. */
  lemma HintIgnoresGuesser<L>(content: string, lang: string,
                              find: string -> Option<L>, g1: string -> L, g2: string -> L)
    requires lang != ""
    ensures ChooseLexer(content, Some(lang), find, g1) == ChooseLexer(content, Some(lang), find, g2)
  {
  }

  /** What make_image hands to highlight and transform. */
  datatype RenderJob<L> = RenderJob(
    lexer: L,
    text: string,
    formatter: FormatterOptions,
    background: string,
    matrix: Option<Matrices.Coefficients>)

  /** make_image(content, output, lang, background, dark, matrix) up to the
      call of highlight: the lexer, the normalised text, the formatter. */
  function PlanImage<L>(content: string, lang: Option<string>, background: string, dark: bool,
                        matrix: Option<Matrices.Coefficients>,
                        find: string -> Option<L>, guess: string -> L): (r: Result<RenderJob<L>, LexerError>)
    ensures var choice := ChooseLexer(content, lang, find, guess);
            && (r.Failure? <==> choice.Failure?)
            && (r.Failure? ==> r.error == choice.error)
            && (r.Success? ==> r.value == RenderJob(choice.value, Lines.LimitInput(content, Lines.DefaultMaxLines),
                                                    GetFormatter(dark), background, matrix))
  {
    match ChooseLexer(content, lang, find, guess)
    case Failure(e) => Failure(e)
    case Success(lexer) =>
      Success(RenderJob(lexer, Lines.LimitInput(content, Lines.DefaultMaxLines),
                        GetFormatter(dark), background, matrix))
  }

  /** The guesser reads the content as it was given, while highlight receives
      the text normalised to 47 lines; an unknown hint fails before anything
      is drawn. */
  lemma PlanImageInputs<L>(content: string, lang: Option<string>, background: string, dark: bool,
                           matrix: Option<Matrices.Coefficients>,
                           find: string -> Option<L>, guess: string -> L)
    ensures var r := PlanImage(content, lang, background, dark, matrix, find, guess);
            && (!HasHint(lang) ==> r.Success? && r.value.lexer == guess(content))
            && (HasHint(lang) && find(lang.value).None? ==> r == Failure(NoneNotCallable(lang.value)))
            && (r.Success? ==> Lines.Count(r.value.text, '\n') == Lines.DefaultMaxLines - 1)
            && (r.Success? ==> r.value.formatter.style == (if dark then "monokai" else "tango"))
  {
  }

  /** make_image up to the perspective transform: the plan, then the matrix
      transform would use.  An unknown hint raises before the matrix cache is
      consulted, so it leaves the cache untouched. */
  method MakeImage<L>(cache: Matrices.MatrixCache, content: string, lang: Option<string>,
                      background: string, dark: bool, matrix: Option<Matrices.Coefficients>,
                      find: string -> Option<L>, guess: string -> L, load: Matrices.Loader)
    returns (job: Result<RenderJob<L>, LexerError>, coefficients: Option<Result<Matrices.Coefficients, Matrices.LoadError>>)
    modifies cache
    ensures job == PlanImage(content, lang, background, dark, matrix, find, guess)
    ensures job.Failure? ==> coefficients.None? && cache.entries == old(cache.entries) && cache.loads == old(cache.loads)
    ensures job.Success? && matrix.Some? ==>
              coefficients == Some(Success(matrix.value)) && cache.entries == old(cache.entries) && cache.loads == old(cache.loads)
    ensures job.Success? && matrix.None? ==>
              cache.loads == old(cache.loads) + (if background in old(cache.entries) then 0 else 1)
    ensures job.Success? && matrix.None? ==>
              coefficients.Some? && Matrices.Fetch(old(cache.entries), background, load) == Matrices.Fetched(coefficients.value, cache.entries)
  {
    job := PlanImage(content, lang, background, dark, matrix, find, guess);
    if job.Failure? {
      return job, None;
    }
    var m := cache.ResolveMatrix(background, matrix, load);
    coefficients := Some(m);
  }
}
