/**
 * The prompt builder of src/components/promptgenerator.tsx.
 *
 * Here the prompt is a pure function of the form record: the descriptive
 * elements are listed in a fixed order (a field that is unset contributes a
 * falsy value), the falsy ones are dropped and the rest joined with ", ";
 * the parameter tokens are listed, filtered and joined with " " in the same
 * way; and the two joins are put together with one space between them. The
 * component's only state is the form record, which the input handler updates
 * one field at a time.
 */
module ListPrompt {
  import opened Segments

  /** The text, dropdown and custom fields of the form. */
  datatype TextField =
    | Medium | Subject | Environment | View | Camera | Lens | Lighting
    | DescriptorI | DescriptorII | Artist | FilmStyle | TimeEpoch
    | AspectRatio | StyleReference | StyleReferenceUrl | IgnoreWords | Version

  /** The checkbox fields of the form. */
  datatype FlagField = Tile | StyleRaw

  datatype FormData = FormData(
    medium: string,
    subject: string,
    environment: string,
    view: string,
    camera: string,
    lens: string,
    lighting: string,
    descriptorI: string,
    descriptorII: string,
    artist: string,
    filmStyle: string,
    timeEpoch: string,
    aspectRatio: string,
    styleReference: string,
    styleReferenceUrl: string,
    ignoreWords: string,
    tile: bool,
    styleRaw: bool,
    version: string)

  /** The record the component starts with: everything empty except the aspect ratio and the version token. */
  function Defaults(): FormData
  {
    FormData(
      medium := "", subject := "", environment := "",
      view := "", camera := "", lens := "", lighting := "",
      descriptorI := "", descriptorII := "", artist := "", filmStyle := "", timeEpoch := "",
      aspectRatio := "16:9", styleReference := "", styleReferenceUrl := "", ignoreWords := "",
      tile := false, styleRaw := false, version := "--v 6.1")
  }

  function Text(fd: FormData, f: TextField): string
  {
    match f
    case Medium => fd.medium
    case Subject => fd.subject
    case Environment => fd.environment
    case View => fd.view
    case Camera => fd.camera
    case Lens => fd.lens
    case Lighting => fd.lighting
    case DescriptorI => fd.descriptorI
    case DescriptorII => fd.descriptorII
    case Artist => fd.artist
    case FilmStyle => fd.filmStyle
    case TimeEpoch => fd.timeEpoch
    case AspectRatio => fd.aspectRatio
    case StyleReference => fd.styleReference
    case StyleReferenceUrl => fd.styleReferenceUrl
    case IgnoreWords => fd.ignoreWords
    case Version => fd.version
  }

  function Flag(fd: FormData, f: FlagField): bool
  {
    match f
    case Tile => fd.tile
    case StyleRaw => fd.styleRaw
  }

  /**
   * One call of the input handler: a text, dropdown or custom field gets a
   * string, a checkbox gets a boolean. The "Random" box of the style
   * reference is the text edit of StyleReference to "random" or to "".
   */
  datatype Edit = SetText(field: TextField, text: string) | SetFlag(flag: FlagField, on: bool)

  /** The record after `{ ...prev, [name]: value }`: the edited field holds the new value and every other field is unchanged. */
  function Apply(fd: FormData, e: Edit): (r: FormData)
    ensures forall g :: Text(r, g) == if e.SetText? && e.field == g then e.text else Text(fd, g)
    ensures forall g :: Flag(r, g) == if e.SetFlag? && e.flag == g then e.on else Flag(fd, g)
  {
    match e
    case SetText(f, s) => (
      match f
      case Medium => fd.(medium := s)
      case Subject => fd.(subject := s)
      case Environment => fd.(environment := s)
      case View => fd.(view := s)
      case Camera => fd.(camera := s)
      case Lens => fd.(lens := s)
      case Lighting => fd.(lighting := s)
      case DescriptorI => fd.(descriptorI := s)
      case DescriptorII => fd.(descriptorII := s)
      case Artist => fd.(artist := s)
      case FilmStyle => fd.(filmStyle := s)
      case TimeEpoch => fd.(timeEpoch := s)
      case AspectRatio => fd.(aspectRatio := s)
      case StyleReference => fd.(styleReference := s)
      case StyleReferenceUrl => fd.(styleReferenceUrl := s)
      case IgnoreWords => fd.(ignoreWords := s)
      case Version => fd.(version := s))
    case SetFlag(f, b) => (
      match f
      case Tile => fd.(tile := b)
      case StyleRaw => fd.(styleRaw := b))
  }

  /** Two records that agree on every field are the same record, so `Apply`'s contract fixes its result. */
  lemma SameFields(a: FormData, b: FormData)
    requires forall g :: Text(a, g) == Text(b, g)
    requires forall g :: Flag(a, g) == Flag(b, g)
    ensures a == b
  {
    assert Text(a, Medium) == Text(b, Medium) && Text(a, Subject) == Text(b, Subject);
    assert Text(a, Environment) == Text(b, Environment) && Text(a, View) == Text(b, View);
    assert Text(a, Camera) == Text(b, Camera) && Text(a, Lens) == Text(b, Lens);
    assert Text(a, Lighting) == Text(b, Lighting) && Text(a, DescriptorI) == Text(b, DescriptorI);
    assert Text(a, DescriptorII) == Text(b, DescriptorII) && Text(a, Artist) == Text(b, Artist);
    assert Text(a, FilmStyle) == Text(b, FilmStyle) && Text(a, TimeEpoch) == Text(b, TimeEpoch);
    assert Text(a, AspectRatio) == Text(b, AspectRatio) && Text(a, StyleReference) == Text(b, StyleReference);
    assert Text(a, StyleReferenceUrl) == Text(b, StyleReferenceUrl) && Text(a, IgnoreWords) == Text(b, IgnoreWords);
    assert Text(a, Version) == Text(b, Version);
    assert Flag(a, Tile) == Flag(b, Tile) && Flag(a, StyleRaw) == Flag(b, StyleRaw);
  }

  /** Setting a field to the value it already holds leaves the record as it was. */
  lemma ApplyUnchanged(fd: FormData, e: Edit)
    requires e.SetText? ==> Text(fd, e.field) == e.text
    requires e.SetFlag? ==> Flag(fd, e.flag) == e.on
    ensures Apply(fd, e) == fd
  {
    SameFields(Apply(fd, e), fd);
  }

  // ---------------------------------------------------------------------
  // The prompt
  // ---------------------------------------------------------------------

  /** JavaScript's `cond && s` inside a list that is then filtered with `filter(Boolean)`: `s` when `cond` holds, dropped otherwise. */
  function Guard(cond: bool, s: string): string
  {
    if cond then s else ""
  }

  /** The medium, with the dropdown's "None" read as empty. */
  function MediumText(fd: FormData): string
  {
    if fd.medium == "None" then "" else fd.medium
  }

  /**
   * `[medium, subject].filter(Boolean).join(" of ")`: both give "medium of
   * subject", one alone gives itself, neither gives nothing, and a medium of
   * "None" counts as absent.
   */
  function MediumSubject(fd: FormData): (r: string)
    ensures MediumText(fd) != "" && fd.subject != "" ==> r == fd.medium + " of " + fd.subject
    ensures MediumText(fd) != "" && fd.subject == "" ==> r == fd.medium
    ensures MediumText(fd) == "" && fd.subject != "" ==> r == fd.subject
    ensures MediumText(fd) == "" && fd.subject == "" ==> r == ""
    ensures fd.medium == "None" ==> r == fd.subject
  {
    var m, s := MediumText(fd), fd.subject;
    assert [m, s] == [m] + [s];
    CompactSnoc([m], s);
    assert [m] == [] + [m];
    CompactSnoc([], m);
    JoinPair(m, s, " of ");
    Join(Compact([m, s]), " of ")
  }

  /** The descriptive elements. */
  datatype Element =
    | ReferenceUrl | MediumAndSubject | Setting | ViewElement | CameraElement | LensElement
    | LightingElement | MoodElement | MovementElement | ArtistElement | FilmElement | PeriodElement

  /** The `elements` array: a string for each element, empty where the source has a falsy value. */
  function ElementTexts(fd: FormData): (es: seq<string>)
    ensures |es| == |ElementOrder|
  {
    [ fd.styleReferenceUrl,
      MediumSubject(fd),
      fd.environment,
      Guard(fd.view != "None", fd.view),
      Guard(fd.camera != "None", fd.camera),
      Guard(fd.lens != "None", fd.lens),
      Guard(fd.lighting != "None", fd.lighting),
      Guard(fd.descriptorI != "None", fd.descriptorI),
      Guard(fd.descriptorII != "None", fd.descriptorII),
      Guard(fd.artist != "None" && fd.artist != "", "by " + fd.artist),
      Guard(fd.filmStyle != "None" && fd.filmStyle != "", fd.filmStyle + " film style"),
      Guard(fd.timeEpoch != "None" && fd.timeEpoch != "", "Time Period: " + fd.timeEpoch) ]
  }

  /** Which element each position of the array holds. */
  const ElementOrder: seq<Element> :=
    [ ReferenceUrl, MediumAndSubject, Setting, ViewElement, CameraElement, LensElement,
      LightingElement, MoodElement, MovementElement, ArtistElement, FilmElement, PeriodElement ]

  function ElementRank(e: Element): nat
  {
    match e
    case ReferenceUrl => 0
    case MediumAndSubject => 1
    case Setting => 2
    case ViewElement => 3
    case CameraElement => 4
    case LensElement => 5
    case LightingElement => 6
    case MoodElement => 7
    case MovementElement => 8
    case ArtistElement => 9
    case FilmElement => 10
    case PeriodElement => 11
  }

  /** The `elements` array with each entry tagged by the element it is. */
  function Elements(fd: FormData): seq<Candidate<Element>>
  {
    Entries(ElementOrder, ElementTexts(fd))
  }

  /** The parameter tokens. */
  datatype Token = TileToken | StyleRawToken | ArToken | NoToken | SrefToken | VersionToken

  /** The parameter array: a string for each token, empty where the source has a falsy value. */
  function ParamTexts(fd: FormData): seq<string>
  {
    [ Guard(fd.tile, "--tile"),
      Guard(fd.styleRaw, "--style raw"),
      Guard(fd.aspectRatio != "", "--ar " + fd.aspectRatio),
      Guard(fd.ignoreWords != "", "--no " + fd.ignoreWords),
      Guard(fd.styleReference != "", "--sref " + fd.styleReference),
      fd.version ]
  }

  const TokenOrder: seq<Token> := [TileToken, StyleRawToken, ArToken, NoToken, SrefToken, VersionToken]

  function TokenRank(t: Token): nat
  {
    match t
    case TileToken => 0
    case StyleRawToken => 1
    case ArToken => 2
    case NoToken => 3
    case SrefToken => 4
    case VersionToken => 5
  }

  /** The parameter array with each entry tagged by the token it is. */
  function ParamEntries(fd: FormData): seq<Candidate<Token>>
  {
    Entries(TokenOrder, ParamTexts(fd))
  }

  /**
   * `elements.filter(Boolean).join(", ")`: empty exactly when every element
   * is, and opened by the reference URL when one is set.
   */
  function Description(fd: FormData): (r: string)
    ensures r == "" <==> forall e :: e in ElementTexts(fd) ==> e == ""
    ensures fd.styleReferenceUrl != "" ==> StartsWith(r, fd.styleReferenceUrl)
  {
    var es := ElementTexts(fd);
    JoinCompactEmpty(es, ", ");
    if fd.styleReferenceUrl != "" then CompactFirst(es); Join(Compact(es), ", ")
    else Join(Compact(es), ", ")
  }

  /**
   * `parameters.filter(Boolean).join(" ")`: empty exactly when every token
   * is, and opened by `--tile` when tiling is on.
   */
  function Parameters(fd: FormData): (r: string)
    ensures r == "" <==> forall p :: p in ParamTexts(fd) ==> p == ""
    ensures fd.tile ==> StartsWith(r, "--tile")
  {
    var ps := ParamTexts(fd);
    JoinCompactEmpty(ps, " ");
    if fd.tile then CompactFirst(ps); Join(Compact(ps), " ")
    else Join(Compact(ps), " ")
  }

  /** The prompt: the description, exactly one space, the parameters. */
  function GeneratePrompt(fd: FormData): (r: string)
    ensures StartsWith(r, Description(fd) + " ")
    ensures EndsWith(r, " " + Parameters(fd))
    ensures |r| == |Description(fd)| + 1 + |Parameters(fd)|
  {
    var d, p := Description(fd), Parameters(fd);
    ConcatAssoc(d, " ", p);
    EndsWithAfter(d, " ", p);
    assert (d + " " + p)[..|d + " "|] == d + " ";
    d + " " + p
  }

  /** The elements that survive the filter, in order. */
  function ElementPieces(fd: FormData): seq<Candidate<Element>>
  {
    Kept(Elements(fd))
  }

  /** The tokens that survive the filter, in order. */
  function ParamPieces(fd: FormData): seq<Candidate<Token>>
  {
    Kept(ParamEntries(fd))
  }

  // ---------------------------------------------------------------------
  // The component's state
  // ---------------------------------------------------------------------

  /** The component: its one piece of state is the form record. */
  class Generator {
    var formData: FormData

    constructor ()
      ensures formData == Defaults()
    {
      formData := Defaults();
    }

    /** The input handler: one field takes the new value. */
    method HandleInputChange(e: Edit)
      modifies this
      ensures formData == Apply(old(formData), e)
    {
      formData := Apply(formData, e);
    }

    /**
     * The text shown under "Final Prompt", recomputed from the current record
     * on every render: it opens with the reference URL when one is set and
     * closes with the version when there is one.
     */
    function Shown(): (r: string)
      reads this
      ensures formData.styleReferenceUrl != "" ==> StartsWith(r, formData.styleReferenceUrl)
      ensures formData.version != "" ==> EndsWith(r, " " + formData.version)
    {
      var fd := formData;
      var p := GeneratePrompt(fd);
      if fd.styleReferenceUrl != "" then
        StartsWithTrans(p, Description(fd) + " ", fd.styleReferenceUrl);
        if fd.version != "" then VersionLast(fd); p else p
      else if fd.version != "" then VersionLast(fd); p
      else p
    }

    /** The copy button hands the clipboard the prompt of the current record, the same text that is shown. */
    method CopyToClipboard() returns (clip: string)
      ensures clip == Shown()
    {
      clip := GeneratePrompt(formData);
    }
  }

  // ---------------------------------------------------------------------
  // Properties
  // ---------------------------------------------------------------------

  /** Filtering the falsy entries is keeping the entries whose text is non-empty, so the joins are over the surviving pieces. */
  lemma PiecesJoined(fd: FormData)
    ensures Description(fd) == Join(Texts(ElementPieces(fd)), ", ")
    ensures Parameters(fd) == Join(Texts(ParamPieces(fd)), " ")
  {
    EntriesCompact(ElementOrder, ElementTexts(fd));
    EntriesCompact(TokenOrder, ParamTexts(fd));
  }

  /** No empty segment is joined: every surviving element and token has text. */
  lemma NoEmptySegment(fd: FormData)
    ensures forall s :: s in Compact(ElementTexts(fd)) ==> s != ""
    ensures forall s :: s in Compact(ParamTexts(fd)) ==> s != ""
  {
  }

  lemma ElementsRanked(fd: FormData)
    ensures Ranked(Elements(fd), ElementRank)
  {
    ElementOrderRanks();
    EntriesRanked(ElementOrder, ElementTexts(fd), ElementRank);
  }

  /** Each element's rank is its position in the array. */
  lemma ElementOrderRanks()
    ensures forall i :: 0 <= i < |ElementOrder| ==> ElementRank(ElementOrder[i]) == i
  {
    forall i | 0 <= i < |ElementOrder|
      ensures ElementRank(ElementOrder[i]) == i
    {
    }
  }

  lemma ParamsRanked(fd: FormData)
    ensures Ranked(ParamEntries(fd), TokenRank)
  {
    forall i | 0 <= i < |TokenOrder|
      ensures TokenRank(TokenOrder[i]) == i
    {
    }
    EntriesRanked(TokenOrder, ParamTexts(fd), TokenRank);
  }

  /** The leading elements: the reference URL and the medium/subject segment, each present exactly when non-empty. */
  lemma LeadingElements(fd: FormData)
    ensures Lookup(ElementPieces(fd), ReferenceUrl) ==
      if fd.styleReferenceUrl != "" then Some(fd.styleReferenceUrl) else None
    ensures Lookup(ElementPieces(fd), MediumAndSubject) ==
      if MediumSubject(fd) != "" then Some(MediumSubject(fd)) else None
    ensures Lookup(ElementPieces(fd), Setting) ==
      if fd.environment != "" then Some(fd.environment) else None
  {
    ElementsRanked(fd);
    LookupKept(Elements(fd), ElementRank, 0);
    LookupKept(Elements(fd), ElementRank, 1);
    LookupKept(Elements(fd), ElementRank, 2);
  }

  /** The dropdown elements: each present, verbatim, exactly when it is neither empty nor "None". */
  lemma DropdownElements(fd: FormData)
    ensures Lookup(ElementPieces(fd), ViewElement) ==
      if fd.view != "None" && fd.view != "" then Some(fd.view) else None
    ensures Lookup(ElementPieces(fd), CameraElement) ==
      if fd.camera != "None" && fd.camera != "" then Some(fd.camera) else None
    ensures Lookup(ElementPieces(fd), LensElement) ==
      if fd.lens != "None" && fd.lens != "" then Some(fd.lens) else None
    ensures Lookup(ElementPieces(fd), LightingElement) ==
      if fd.lighting != "None" && fd.lighting != "" then Some(fd.lighting) else None
    ensures Lookup(ElementPieces(fd), MoodElement) ==
      if fd.descriptorI != "None" && fd.descriptorI != "" then Some(fd.descriptorI) else None
    ensures Lookup(ElementPieces(fd), MovementElement) ==
      if fd.descriptorII != "None" && fd.descriptorII != "" then Some(fd.descriptorII) else None
  {
    ElementsRanked(fd);
    LookupKept(Elements(fd), ElementRank, 3);
    LookupKept(Elements(fd), ElementRank, 4);
    LookupKept(Elements(fd), ElementRank, 5);
    LookupKept(Elements(fd), ElementRank, 6);
    LookupKept(Elements(fd), ElementRank, 7);
    LookupKept(Elements(fd), ElementRank, 8);
  }

  /** The templated elements: each present exactly when its field is neither empty nor "None". */
  lemma TemplatedElements(fd: FormData)
    ensures Lookup(ElementPieces(fd), ArtistElement) ==
      if fd.artist != "None" && fd.artist != "" then Some("by " + fd.artist) else None
    ensures Lookup(ElementPieces(fd), FilmElement) ==
      if fd.filmStyle != "None" && fd.filmStyle != "" then Some(fd.filmStyle + " film style") else None
    ensures Lookup(ElementPieces(fd), PeriodElement) ==
      if fd.timeEpoch != "None" && fd.timeEpoch != "" then Some("Time Period: " + fd.timeEpoch) else None
  {
    ElementsRanked(fd);
    LookupKept(Elements(fd), ElementRank, 9);
    LookupKept(Elements(fd), ElementRank, 10);
    LookupKept(Elements(fd), ElementRank, 11);
  }

  /** "by None" is never emitted. */
  lemma NoArtistNone(fd: FormData)
    ensures Lookup(ElementPieces(fd), ArtistElement) != Some("by None")
  {
    TemplatedElements(fd);
    if fd.artist != "None" && fd.artist != "" {
      assert ("by " + fd.artist)[3..] == fd.artist;
      assert "by None"[3..] == "None";
    }
  }

  /** Each parameter token is present exactly when its field is set, with its own text. */
  lemma ParameterTokens(fd: FormData)
    ensures Lookup(ParamPieces(fd), TileToken) == if fd.tile then Some("--tile") else None
    ensures Lookup(ParamPieces(fd), StyleRawToken) == if fd.styleRaw then Some("--style raw") else None
    ensures Lookup(ParamPieces(fd), ArToken) == if fd.aspectRatio != "" then Some("--ar " + fd.aspectRatio) else None
    ensures Lookup(ParamPieces(fd), NoToken) == if fd.ignoreWords != "" then Some("--no " + fd.ignoreWords) else None
    ensures Lookup(ParamPieces(fd), SrefToken) == if fd.styleReference != "" then Some("--sref " + fd.styleReference) else None
    ensures Lookup(ParamPieces(fd), VersionToken) == if fd.version != "" then Some(fd.version) else None
  {
    var cs := ParamEntries(fd);
    ParamsRanked(fd);
    LookupKept(cs, TokenRank, 0);
    LookupKept(cs, TokenRank, 1);
    LookupKept(cs, TokenRank, 2);
    LookupKept(cs, TokenRank, 3);
    LookupKept(cs, TokenRank, 4);
    LookupKept(cs, TokenRank, 5);
  }

  /** The surviving elements and tokens keep the fixed order. */
  lemma FixedOrder(fd: FormData)
    ensures Ranked(ElementPieces(fd), ElementRank)
    ensures Ranked(ParamPieces(fd), TokenRank)
  {
    ElementsRanked(fd);
    ParamsRanked(fd);
    KeptRanked(Elements(fd), ElementRank);
    KeptRanked(ParamEntries(fd), TokenRank);
  }

  /** Ticking "Random" makes the style reference token "--sref random". */
  lemma RandomReference(fd: FormData)
    ensures Lookup(ParamPieces(Apply(fd, SetText(StyleReference, "random"))), SrefToken) == Some("--sref random")
    ensures Lookup(ParamPieces(Apply(fd, SetText(StyleReference, ""))), SrefToken) == None
  {
    var on, off := Apply(fd, SetText(StyleReference, "random")), Apply(fd, SetText(StyleReference, ""));
    assert on.styleReference == "random" && off.styleReference == "";
    assert |"random"| == 6;
    assert "--sref " + "random" == "--sref random";
    ParameterTokens(on);
    ParameterTokens(off);
  }

  /** A non-empty version token is the last thing in the prompt, behind one space. */
  lemma VersionLast(fd: FormData)
    requires fd.version != ""
    ensures EndsWith(GeneratePrompt(fd), " " + fd.version)
  {
    var ps := ParamTexts(fd);
    var init := ps[..5];
    assert ps == init + [fd.version];
    CompactSnoc(init, fd.version);
    VersionJoinedLast(Compact(init), fd.version);
    EndsWithTrans(GeneratePrompt(fd), " " + Parameters(fd), " " + fd.version);
  }

  /** Joining tokens whose last one is the version ends with it, behind a space once the joined string is spaced off. */
  lemma VersionJoinedLast(xs: seq<string>, v: string)
    ensures EndsWith(" " + Join(xs + [v], " "), " " + v)
  {
    if xs == [] {
      assert xs + [v] == [v];
      assert Join([v], " ") == v;
    } else {
      JoinEndsWithLast(xs, " ", v);
      EndsWithExtend(" ", Join(xs + [v], " "), " " + v);
    }
  }

  /** The untouched form gives an empty description, the space, and the default aspect ratio and version. */
  lemma DefaultPrompt(fd: FormData)
    requires fd == Defaults()
    ensures GeneratePrompt(fd) == " --ar 16:9 --v 6.1"
  {
    DefaultDescription(fd);
    DefaultParameters(fd);
    DefaultJoined(Description(fd), Parameters(fd));
  }

  lemma DefaultJoined(d: string, p: string)
    requires d == "" && p == "--ar 16:9 --v 6.1"
    ensures d + " " + p == " --ar 16:9 --v 6.1"
  {
  }

  lemma DefaultDescription(fd: FormData)
    requires fd == Defaults()
    ensures Description(fd) == ""
  {
    var es := ElementTexts(fd);
    assert forall i :: 0 <= i < |es| ==> es[i] == "";
    CompactNone(es);
  }

  lemma DefaultParameters(fd: FormData)
    requires fd == Defaults()
    ensures Parameters(fd) == "--ar 16:9 --v 6.1"
  {
    var ar, v := "--ar " + fd.aspectRatio, fd.version;
    assert ParamTexts(fd) == ["", "", ar, "", "", v];
    DefaultTokens(ar, v);
    assert ar == "--ar 16:9" && v == "--v 6.1";
    DefaultTokensJoined(Join([ar, v], " "));
  }

  /** Filtering and joining the default parameter array keeps the aspect ratio and the version. */
  lemma DefaultTokens(ar: string, v: string)
    requires ar != "" && v != ""
    ensures Compact(["", "", ar, "", "", v]) == [ar, v]
  {
    assert ["", "", ar, "", "", v] == ["", ""] + [ar] + ["", ""] + [v];
    CompactNone(["", ""]);
    CompactAppend(["", ""], [ar]);
    CompactSingle(ar);
    CompactAppend(["", ""] + [ar], ["", ""]);
    CompactSnoc(["", ""] + [ar] + ["", ""], v);
  }

  lemma DefaultTokensJoined(j: string)
    requires j == Join(["--ar 16:9", "--v 6.1"], " ")
    ensures j == "--ar 16:9 --v 6.1"
  {
    JoinPair("--ar 16:9", "--v 6.1", " ");
  }

  /** A blank record with no version gives a lone space: the separator is written even when both halves are empty. */
  lemma BlankPrompt(fd: FormData)
    requires forall f :: Text(fd, f) == ""
    requires !fd.tile && !fd.styleRaw
    ensures GeneratePrompt(fd) == " "
  {
    assert fd.medium == Text(fd, Medium) && fd.subject == Text(fd, Subject);
    assert fd.environment == Text(fd, Environment) && fd.view == Text(fd, View);
    assert fd.camera == Text(fd, Camera) && fd.lens == Text(fd, Lens);
    assert fd.lighting == Text(fd, Lighting) && fd.descriptorI == Text(fd, DescriptorI);
    assert fd.descriptorII == Text(fd, DescriptorII) && fd.artist == Text(fd, Artist);
    assert fd.filmStyle == Text(fd, FilmStyle) && fd.timeEpoch == Text(fd, TimeEpoch);
    assert fd.aspectRatio == Text(fd, AspectRatio) && fd.styleReference == Text(fd, StyleReference);
    assert fd.styleReferenceUrl == Text(fd, StyleReferenceUrl) && fd.ignoreWords == Text(fd, IgnoreWords);
    assert fd.version == Text(fd, Version);
    var es, ps := ElementTexts(fd), ParamTexts(fd);
    assert forall i :: 0 <= i < |es| ==> es[i] == "";
    assert forall i :: 0 <= i < |ps| ==> ps[i] == "";
    CompactNone(es);
    CompactNone(ps);
  }
}
