/** The debug console's syntax colours: a QProgEdit colour scheme (a
    dictionary from style names to colours) is turned into the token-to-
    colour table of a Pygments style, and setTheme applies it only when the
    configured scheme exists. */
module ConsoleStyle {
  import opened Wrappers

  /** A colour as a QProgEdit scheme stores it: a string, or a tuple whose
      first element is the colour. */
  datatype Color = Str(s: string) | Tup(items: seq<string>)

  /** A QProgEdit colour scheme. */
  type Scheme = map<string, Color>

  const Black := "#000000"

  /** `_style(cs, token)`: the colour stored under `key`, black when
      there is none, the first element of a tuple. Indexing an empty tuple
      raises IndexError, modelled as None. */
  function Style(cs: Scheme, key: string): (r: Option<string>)
    ensures key !in cs ==> r == Some(Black)
    ensures key in cs && cs[key].Str? ==> r == Some(cs[key].s)
    ensures key in cs && cs[key].Tup? ==>
              (r.Some? <==> |cs[key].items| > 0) && (r.Some? ==> r.value == cs[key].items[0])
  {
    var color := if key in cs then cs[key] else Str(Black);
    match color
    case Str(s) => Some(s)
    case Tup(items) => if |items| > 0 then Some(items[0]) else None
  }

  /** The Pygments token categories the style covers. */
  datatype TokenType = Comment | Keyword | Name | String | Error | Number | Operator | Generic

  const AllTokens: set<TokenType> := {Comment, Keyword, Name, String, Error, Number, Operator, Generic}

  /** The QProgEdit style name each token category takes its colour from. */
  function SchemeKey(t: TokenType): string
  {
    match t
    case Comment => "Comment"
    case Keyword => "Keyword"
    case Name => "Identifier"
    case String => "Double-quoted string"
    case Error => "Invalid"
    case Number => "Number"
    case Operator => "Operator"
    case Generic => "Default"
  }

  /** The generated Pygments style class: its default_style and its styles
      dictionary. */
  datatype StyleTable = StyleTable(defaultStyle: string, styles: map<TokenType, string>)

  /** pygments_style_factory(cs). The class body evaluates all eight
      lookups; any that raises makes the whole call raise (None). */
  function PygmentsStyle(cs: Scheme): Option<StyleTable>
  {
    var comment := Style(cs, SchemeKey(Comment));
    var keyword := Style(cs, SchemeKey(Keyword));
    var name := Style(cs, SchemeKey(Name));
    var str := Style(cs, SchemeKey(String));
    var error := Style(cs, SchemeKey(Error));
    var number := Style(cs, SchemeKey(Number));
    var operator := Style(cs, SchemeKey(Operator));
    var generic := Style(cs, SchemeKey(Generic));
    if comment.None? || keyword.None? || name.None? || str.None? ||
       error.None? || number.None? || operator.None? || generic.None?
    then None
    else
      Some(StyleTable("", map[
        Comment := comment.value, Keyword := keyword.value, Name := name.value,
        String := str.value, Error := error.value, Number := number.value,
        Operator := operator.value, Generic := generic.value]))
  }

  /** The table has exactly the eight token categories, each coloured
      `Style(cs, SchemeKey(t))`, and it is built exactly when all eight
      lookups succeed. */
  lemma PygmentsStyleTable(cs: Scheme)
    ensures PygmentsStyle(cs).Some? <==> forall t: TokenType :: Style(cs, SchemeKey(t)).Some?
    ensures var r := PygmentsStyle(cs);
            r.Some? ==> r.value.defaultStyle == "" && r.value.styles.Keys == AllTokens
    ensures var r := PygmentsStyle(cs);
            r.Some? ==> forall t: TokenType :: t in r.value.styles && r.value.styles[t] == Style(cs, SchemeKey(t)).value
  {
    var r := PygmentsStyle(cs);
    forall t: TokenType | r.Some?
      ensures Style(cs, SchemeKey(t)).Some? && t in r.value.styles && r.value.styles[t] == Style(cs, SchemeKey(t)).value
    {
      match t
      case Comment =>
      case Keyword =>
      case Name =>
      case String =>
      case Error =>
      case Number =>
      case Operator =>
      case Generic =>
    }
  }

  /** No scheme value is an empty tuple. */
  predicate NoEmptyTuple(cs: Scheme)
  {
    forall k :: k in cs && cs[k].Tup? ==> |cs[k].items| > 0
  }

  /** Distinct token categories read distinct style names. */
  lemma SchemeKeyInjective(t: TokenType, u: TokenType)
    requires SchemeKey(t) == SchemeKey(u)
    ensures t == u
  {
  }

  /** Building the table fails only on an empty tuple: with none, every
      scheme (the empty one included) gives a table. */
  lemma PygmentsStyleTotal(cs: Scheme)
    requires NoEmptyTuple(cs)
    ensures PygmentsStyle(cs).Some?
  {
    forall t: TokenType
      ensures Style(cs, SchemeKey(t)).Some?
    {
      var k := SchemeKey(t);
      if k in cs && cs[k].Tup? {
        assert |cs[k].items| > 0;
      }
    }
  }

  /** An empty tuple under one of the eight style names makes the factory
      raise. */
  lemma PygmentsStyleEmptyTuple(cs: Scheme, t: TokenType)
    requires SchemeKey(t) in cs && cs[SchemeKey(t)] == Tup([])
    ensures PygmentsStyle(cs).None?
  {
    assert Style(cs, SchemeKey(t)).None?;
  }

  /** A token category whose style name the scheme lacks is black. */
  lemma PygmentsStyleMissingIsBlack(cs: Scheme, t: TokenType)
    requires SchemeKey(t) !in cs && PygmentsStyle(cs).Some?
    ensures PygmentsStyle(cs).value.styles[t] == Black
  {
  }

  /** The empty scheme colours everything black. */
  lemma PygmentsStyleEmptyScheme()
    ensures PygmentsStyle(map[]).Some?
    ensures forall t: TokenType :: t in PygmentsStyle(map[]).value.styles && PygmentsStyle(map[]).value.styles[t] == Black
  {
    PygmentsStyleTotal(map[]);
    PygmentsStyleTable(map[]);
  }

  /** Only the eight style names matter: schemes agreeing on them give the
      same table. */
  lemma PygmentsStyleReadsEightKeys(cs1: Scheme, cs2: Scheme)
    requires forall t: TokenType :: Style(cs1, SchemeKey(t)) == Style(cs2, SchemeKey(t))
    ensures PygmentsStyle(cs1) == PygmentsStyle(cs2)
  {
  }

  // ---------------------------------------------------------------------
  // The scheme-name guard of setTheme

  /** What setTheme does with the highlighter: nothing when the configured
      scheme does not exist (the method returns ''), or the style that
      pygments_style_factory built, or an exception out of the factory. */
  datatype ThemeOutcome = SchemeMissing | FactoryRaised | StyleApplied(style: StyleTable)

  /** setTheme up to the highlighter: `schemes` holds the colour schemes
      that QColorScheme defines, `name` is the configured scheme name. */
  function SetTheme(schemes: map<string, Scheme>, name: string): (r: ThemeOutcome)
    ensures r == SchemeMissing <==> name !in schemes
    ensures r.StyleApplied? <==> name in schemes && PygmentsStyle(schemes[name]).Some?
    ensures r.StyleApplied? ==> r.style == PygmentsStyle(schemes[name]).value
  {
    if name !in schemes then SchemeMissing
    else match PygmentsStyle(schemes[name])
      case None => FactoryRaised
      case Some(style) => StyleApplied(style)
  }

  /** An existing scheme without empty tuples is always applied, and its
      Identifier colour goes to the Name tokens. */
  lemma SetThemeApplies(schemes: map<string, Scheme>, name: string)
    requires name in schemes && NoEmptyTuple(schemes[name])
    ensures SetTheme(schemes, name).StyleApplied?
    ensures SetTheme(schemes, name).style.styles[Name] == Style(schemes[name], "Identifier").value
  {
    PygmentsStyleTotal(schemes[name]);
  }
}
