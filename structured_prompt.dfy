/**
 * The prompt builder of src/components/structured-prompt-generator.tsx.
 *
 * The component keeps one form record; every edit replaces one field and shows
 * the prompt card, and an effect re-derives the prompt from the record by
 * appending to two accumulators: a descriptive body, whose pieces are each
 * appended behind ", ", and a parameter string, whose tokens are each appended
 * behind " ". The generated prompt is the body followed directly by the
 * parameters.
 */
module StructuredPrompt {
  import opened Segments

  /** The free-text and dropdown fields of the form (dropdowns use "None" for "nothing chosen"). */
  datatype TextField =
    | Medium | Subject | Environment | View | Camera | Lens | Lighting
    | DescriptorI | DescriptorII | Artist | FilmName | ImageUrl | AspectRatio
    | IgnoreWords | StyleReference | TimeEpoch | StyleReferenceUrl

  /** The checkbox fields of the form. */
  datatype FlagField = Tile | StyleRaw | StyleRandom

  datatype FormData = FormData(
    medium: string,
    subject: string,
    environment: string,
    view: string,
    camera: string,
    lens: string,
    lighting: string,
    descriptorI: string,
    descriptorII: string,
    artist: string,
    filmName: string,
    imageUrl: string,
    aspectRatio: string,
    ignoreWords: string,
    tile: bool,
    styleRaw: bool,
    styleReference: string,
    styleRandom: bool,
    timeEpoch: string,
    styleReferenceUrl: string)

  /** The record the component starts with. */
  function Defaults(): FormData
  {
    FormData(
      medium := "", subject := "", environment := "",
      view := "None", camera := "None", lens := "None", lighting := "None",
      descriptorI := "None", descriptorII := "None", artist := "", filmName := "",
      imageUrl := "", aspectRatio := "16:9", ignoreWords := "",
      tile := false, styleRaw := false, styleReference := "", styleRandom := false,
      timeEpoch := "None", styleReferenceUrl := "")
  }

  function Text(fd: FormData, f: TextField): string
  {
    match f
    case Medium => fd.medium
    case Subject => fd.subject
    case Environment => fd.environment
    case View => fd.view
    case Camera => fd.camera
    case Lens => fd.lens
    case Lighting => fd.lighting
    case DescriptorI => fd.descriptorI
    case DescriptorII => fd.descriptorII
    case Artist => fd.artist
    case FilmName => fd.filmName
    case ImageUrl => fd.imageUrl
    case AspectRatio => fd.aspectRatio
    case IgnoreWords => fd.ignoreWords
    case StyleReference => fd.styleReference
    case TimeEpoch => fd.timeEpoch
    case StyleReferenceUrl => fd.styleReferenceUrl
  }

  function Flag(fd: FormData, f: FlagField): bool
  {
    match f
    case Tile => fd.tile
    case StyleRaw => fd.styleRaw
    case StyleRandom => fd.styleRandom
  }

  /** One call of the input handler: a text or dropdown field gets a string, a checkbox gets a boolean. */
  datatype Edit = SetText(field: TextField, text: string) | SetFlag(flag: FlagField, on: bool)

  /** The record after `{ ...prev, [field]: value }`: the edited field holds the new value and every other field is unchanged. */
  function Apply(fd: FormData, e: Edit): (r: FormData)
    ensures forall g :: Text(r, g) == if e.SetText? && e.field == g then e.text else Text(fd, g)
    ensures forall g :: Flag(r, g) == if e.SetFlag? && e.flag == g then e.on else Flag(fd, g)
  {
    match e
    case SetText(f, s) => (
      match f
      case Medium => fd.(medium := s)
      case Subject => fd.(subject := s)
      case Environment => fd.(environment := s)
      case View => fd.(view := s)
      case Camera => fd.(camera := s)
      case Lens => fd.(lens := s)
      case Lighting => fd.(lighting := s)
      case DescriptorI => fd.(descriptorI := s)
      case DescriptorII => fd.(descriptorII := s)
      case Artist => fd.(artist := s)
      case FilmName => fd.(filmName := s)
      case ImageUrl => fd.(imageUrl := s)
      case AspectRatio => fd.(aspectRatio := s)
      case IgnoreWords => fd.(ignoreWords := s)
      case StyleReference => fd.(styleReference := s)
      case TimeEpoch => fd.(timeEpoch := s)
      case StyleReferenceUrl => fd.(styleReferenceUrl := s))
    case SetFlag(f, b) => (
      match f
      case Tile => fd.(tile := b)
      case StyleRaw => fd.(styleRaw := b)
      case StyleRandom => fd.(styleRandom := b))
  }

  /** Two records that agree on every field are the same record, so `Apply`'s contract fixes its result. */
  lemma SameFields(a: FormData, b: FormData)
    requires forall g :: Text(a, g) == Text(b, g)
    requires forall g :: Flag(a, g) == Flag(b, g)
    ensures a == b
  {
    assert Text(a, Medium) == Text(b, Medium) && Text(a, Subject) == Text(b, Subject);
    assert Text(a, Environment) == Text(b, Environment) && Text(a, View) == Text(b, View);
    assert Text(a, Camera) == Text(b, Camera) && Text(a, Lens) == Text(b, Lens);
    assert Text(a, Lighting) == Text(b, Lighting) && Text(a, DescriptorI) == Text(b, DescriptorI);
    assert Text(a, DescriptorII) == Text(b, DescriptorII) && Text(a, Artist) == Text(b, Artist);
    assert Text(a, FilmName) == Text(b, FilmName) && Text(a, ImageUrl) == Text(b, ImageUrl);
    assert Text(a, AspectRatio) == Text(b, AspectRatio) && Text(a, IgnoreWords) == Text(b, IgnoreWords);
    assert Text(a, StyleReference) == Text(b, StyleReference) && Text(a, TimeEpoch) == Text(b, TimeEpoch);
    assert Text(a, StyleReferenceUrl) == Text(b, StyleReferenceUrl);
    assert Flag(a, Tile) == Flag(b, Tile) && Flag(a, StyleRaw) == Flag(b, StyleRaw);
    assert Flag(a, StyleRandom) == Flag(b, StyleRandom);
  }

  /** Setting a field to the value it already holds leaves the record as it was. */
  lemma ApplyUnchanged(fd: FormData, e: Edit)
    requires e.SetText? ==> Text(fd, e.field) == e.text
    requires e.SetFlag? ==> Flag(fd, e.flag) == e.on
    ensures Apply(fd, e) == fd
  {
    SameFields(Apply(fd, e), fd);
  }

  // ---------------------------------------------------------------------
  // The prompt, as a specification
  // ---------------------------------------------------------------------

  /** What goes before the descriptive pieces: the reference URL and a space when there is one, then "medium of subject" with no guard. */
  function Lead(fd: FormData): string
  {
    (if fd.styleReferenceUrl != "" then fd.styleReferenceUrl + " " else "")
    + fd.medium + " of " + fd.subject
  }

  /** The setting piece: the environment, when one is typed. */
  function SettingCandidates(fd: FormData): seq<Candidate<TextField>>
  {
    [Candidate(Environment, fd.environment != "", fd.environment)]
  }

  /** The composition pieces, each unless it is "None". */
  function CompositionCandidates(fd: FormData): seq<Candidate<TextField>>
  {
    [Candidate(View, fd.view != "None", fd.view)]
    + [Candidate(Camera, fd.camera != "None", fd.camera)]
    + [Candidate(Lens, fd.lens != "None", fd.lens)]
    + [Candidate(Lighting, fd.lighting != "None", fd.lighting)]
  }

  /** The style pieces: descriptors and period unless "None", artist and film when typed. */
  function StyleCandidates(fd: FormData): seq<Candidate<TextField>>
  {
    [Candidate(DescriptorI, fd.descriptorI != "None", fd.descriptorI)]
    + [Candidate(DescriptorII, fd.descriptorII != "None", fd.descriptorII)]
    + [Candidate(Artist, fd.artist != "", "by " + fd.artist)]
    + [Candidate(FilmName, fd.filmName != "", fd.filmName + " film style")]
    + [Candidate(TimeEpoch, fd.timeEpoch != "None", "Time Period: " + fd.timeEpoch)]
  }

  /** The descriptive pieces in their fixed order, each with its trigger. */
  function BodyCandidates(fd: FormData): seq<Candidate<TextField>>
  {
    SettingCandidates(fd) + CompositionCandidates(fd) + StyleCandidates(fd)
  }

  /** Position of each descriptive piece in the fixed order. */
  function BodyRank(f: TextField): nat
  {
    match f
    case Environment => 0
    case View => 1
    case Camera => 2
    case Lens => 3
    case Lighting => 4
    case DescriptorI => 5
    case DescriptorII => 6
    case Artist => 7
    case FilmName => 8
    case TimeEpoch => 9
    case _ => 10
  }

  /** The parameter tokens. */
  datatype Token = TileToken | StyleRawToken | ArToken | NoToken | SrefRandomToken | SrefToken

  /** The tiling, raw style, aspect ratio and ignore-words tokens. */
  function PlainParamCandidates(fd: FormData): seq<Candidate<Token>>
  {
    [Candidate(TileToken, fd.tile, "--tile")]
    + [Candidate(StyleRawToken, fd.styleRaw, "--style raw")]
    + [Candidate(ArToken, fd.aspectRatio != "None", "--ar " + fd.aspectRatio)]
    + [Candidate(NoToken, fd.ignoreWords != "", "--no " + fd.ignoreWords)]
  }

  /** The style reference tokens; a random reference wins over a typed one. */
  function ReferenceCandidates(fd: FormData): seq<Candidate<Token>>
  {
    [Candidate(SrefRandomToken, fd.styleRandom, "--sref random")]
    + [Candidate(SrefToken, !fd.styleRandom && fd.styleReference != "", "--sref " + fd.styleReference)]
  }

  /** The parameter tokens in their fixed order, each with its trigger. */
  function ParamCandidates(fd: FormData): seq<Candidate<Token>>
  {
    PlainParamCandidates(fd) + ReferenceCandidates(fd)
  }

  function TokenRank(t: Token): nat
  {
    match t
    case TileToken => 0
    case StyleRawToken => 1
    case ArToken => 2
    case NoToken => 3
    case SrefRandomToken => 4
    case SrefToken => 5
  }

  /** The descriptive body: the lead, then each present piece behind ", ". */
  function Body(fd: FormData): string
  {
    Lead(fd) + Render(Kept(BodyCandidates(fd)), ", ")
  }

  /** The parameter string: each present token behind a single space. */
  function Parameters(fd: FormData): string
  {
    Render(Kept(ParamCandidates(fd)), " ")
  }

  /** The generated prompt: the body followed directly by the parameters. */
  function Prompt(fd: FormData): string
  {
    Body(fd) + Parameters(fd)
  }

  // ---------------------------------------------------------------------
  // The effect body, as written
  // ---------------------------------------------------------------------

  /** The descriptive part of the prompt, built by conditional appends as the effect does. */
  method DescribeScene(fd: FormData) returns (prompt: string)
    ensures prompt == Body(fd)
  {
    prompt := "";
    if fd.styleReferenceUrl != "" {
      prompt := fd.styleReferenceUrl + " ";
    }
    prompt := prompt + fd.medium + " of " + fd.subject;
    ghost var lead := prompt;

    ghost var c := Candidate(Environment, fd.environment != "", fd.environment);
    assert [] + [c] == SettingCandidates(fd);
    AppendStep<TextField>(prompt, ", " + fd.environment, lead, [], c, ", ");
    if fd.environment != "" {
      prompt := prompt + (", " + fd.environment);
    }

    ghost var setting := prompt;
    prompt := AppendComposition(fd, prompt);
    prompt := AppendStyle(fd, prompt);
    Sections(fd, lead, setting, prompt);
  }

  /** The composition appends: view, camera, lens and lighting, each unless "None". */
  method AppendComposition(fd: FormData, acc: string) returns (prompt: string)
    ensures prompt == acc + Render(Kept(CompositionCandidates(fd)), ", ")
  {
    ghost var c0 := Candidate(View, fd.view != "None", fd.view);
    ghost var c1 := Candidate(Camera, fd.camera != "None", fd.camera);
    ghost var c2 := Candidate(Lens, fd.lens != "None", fd.lens);
    ghost var c3 := Candidate(Lighting, fd.lighting != "None", fd.lighting);
    ghost var done: seq<Candidate<TextField>> := [];
    assert done + [c0] + [c1] + [c2] + [c3] == CompositionCandidates(fd);

    prompt := acc;
    AppendStep(prompt, ", " + fd.view, acc, done, c0, ", ");
    if fd.view != "None" { prompt := prompt + (", " + fd.view); }
    done := done + [c0];
    AppendStep(prompt, ", " + fd.camera, acc, done, c1, ", ");
    if fd.camera != "None" { prompt := prompt + (", " + fd.camera); }
    done := done + [c1];
    AppendStep(prompt, ", " + fd.lens, acc, done, c2, ", ");
    if fd.lens != "None" { prompt := prompt + (", " + fd.lens); }
    done := done + [c2];
    AppendStep(prompt, ", " + fd.lighting, acc, done, c3, ", ");
    if fd.lighting != "None" { prompt := prompt + (", " + fd.lighting); }
  }

  /** The style appends: the two descriptors, the artist, the film and the time period. */
  method AppendStyle(fd: FormData, acc: string) returns (prompt: string)
    ensures prompt == acc + Render(Kept(StyleCandidates(fd)), ", ")
  {
    ghost var c0 := Candidate(DescriptorI, fd.descriptorI != "None", fd.descriptorI);
    ghost var c1 := Candidate(DescriptorII, fd.descriptorII != "None", fd.descriptorII);
    ghost var c2 := Candidate(Artist, fd.artist != "", "by " + fd.artist);
    ghost var c3 := Candidate(FilmName, fd.filmName != "", fd.filmName + " film style");
    ghost var c4 := Candidate(TimeEpoch, fd.timeEpoch != "None", "Time Period: " + fd.timeEpoch);
    ghost var done: seq<Candidate<TextField>> := [];
    assert done + [c0] + [c1] + [c2] + [c3] + [c4] == StyleCandidates(fd);
    Templates(fd.artist, fd.filmName, fd.timeEpoch);

    prompt := acc;
    AppendStep(prompt, ", " + fd.descriptorI, acc, done, c0, ", ");
    if fd.descriptorI != "None" { prompt := prompt + (", " + fd.descriptorI); }
    done := done + [c0];
    AppendStep(prompt, ", " + fd.descriptorII, acc, done, c1, ", ");
    if fd.descriptorII != "None" { prompt := prompt + (", " + fd.descriptorII); }
    done := done + [c1];
    AppendStep(prompt, ", by " + fd.artist, acc, done, c2, ", ");
    if fd.artist != "" { prompt := prompt + (", by " + fd.artist); }
    done := done + [c2];
    AppendStep(prompt, ", " + fd.filmName + " film style", acc, done, c3, ", ");
    if fd.filmName != "" { prompt := prompt + (", " + fd.filmName + " film style"); }
    done := done + [c3];
    AppendStep(prompt, ", Time Period: " + fd.timeEpoch, acc, done, c4, ", ");
    if fd.timeEpoch != "None" { prompt := prompt + (", Time Period: " + fd.timeEpoch); }
  }

  /** The parameter string, collected by conditional appends as the effect does. */
  method CollectParameters(fd: FormData) returns (parameters: string)
    ensures parameters == Parameters(fd)
  {
    var plain := AppendPlainParameters(fd, "");
    parameters := AppendReferences(fd, plain);
    ghost var p, r := PlainParamCandidates(fd), ReferenceCandidates(fd);
    RenderKeptConcat(p, r, " ");
    ConcatAssoc("", Render(Kept(p), " "), Render(Kept(r), " "));
  }

  /** The tiling, raw style, aspect ratio and ignore-words appends. */
  method AppendPlainParameters(fd: FormData, acc: string) returns (parameters: string)
    ensures parameters == acc + Render(Kept(PlainParamCandidates(fd)), " ")
  {
    ghost var t0 := Candidate(TileToken, fd.tile, "--tile");
    ghost var t1 := Candidate(StyleRawToken, fd.styleRaw, "--style raw");
    ghost var t2 := Candidate(ArToken, fd.aspectRatio != "None", "--ar " + fd.aspectRatio);
    ghost var t3 := Candidate(NoToken, fd.ignoreWords != "", "--no " + fd.ignoreWords);
    ghost var done: seq<Candidate<Token>> := [];
    assert done + [t0] + [t1] + [t2] + [t3] == PlainParamCandidates(fd);
    Templates(fd.aspectRatio, fd.ignoreWords, fd.styleReference);

    parameters := acc;
    AppendStep(parameters, " --tile", acc, done, t0, " ");
    if fd.tile { parameters := parameters + " --tile"; }
    done := done + [t0];
    AppendStep(parameters, " --style raw", acc, done, t1, " ");
    if fd.styleRaw { parameters := parameters + " --style raw"; }
    done := done + [t1];
    AppendStep(parameters, " --ar " + fd.aspectRatio, acc, done, t2, " ");
    if fd.aspectRatio != "None" { parameters := parameters + (" --ar " + fd.aspectRatio); }
    done := done + [t2];
    AppendStep(parameters, " --no " + fd.ignoreWords, acc, done, t3, " ");
    if fd.ignoreWords != "" { parameters := parameters + (" --no " + fd.ignoreWords); }
  }

  /** The style reference append: random when ticked, else the typed reference when there is one. */
  method AppendReferences(fd: FormData, acc: string) returns (parameters: string)
    ensures parameters == acc + Render(Kept(ReferenceCandidates(fd)), " ")
  {
    ghost var t4 := Candidate(SrefRandomToken, fd.styleRandom, "--sref random");
    ghost var t5 := Candidate(SrefToken, !fd.styleRandom && fd.styleReference != "", "--sref " + fd.styleReference);
    ghost var done: seq<Candidate<Token>> := [];
    assert done + [t4] + [t5] == ReferenceCandidates(fd);
    Templates(fd.aspectRatio, fd.ignoreWords, fd.styleReference);

    parameters := acc;
    AppendStep(parameters, " --sref random", acc, done, t4, " ");
    done := done + [t4];
    if fd.styleRandom {
      parameters := parameters + " --sref random";
      AppendStep(parameters, " --sref " + fd.styleReference, acc, done, t5, " ");
    } else {
      AppendStep(parameters, " --sref " + fd.styleReference, acc, done, t5, " ");
      if fd.styleReference != "" {
        parameters := parameters + (" --sref " + fd.styleReference);
      }
    }
  }

  /** The three sections of the body, appended one after another, render the whole body. */
  lemma Sections(fd: FormData, lead: string, setting: string, prompt: string)
    requires lead == Lead(fd)
    requires setting == lead + Render(Kept(SettingCandidates(fd)), ", ")
    requires prompt == setting + Render(Kept(CompositionCandidates(fd)), ", ") + Render(Kept(StyleCandidates(fd)), ", ")
    ensures prompt == Body(fd)
  {
    var s, c, y := SettingCandidates(fd), CompositionCandidates(fd), StyleCandidates(fd);
    RenderKeptConcat(s, c, ", ");
    RenderKeptConcat(s + c, y, ", ");
    var rs, rc, ry := Render(Kept(s), ", "), Render(Kept(c), ", "), Render(Kept(y), ", ");
    ConcatAssoc(lead, rs, rc);
    ConcatAssoc(lead, rs + rc, ry);
  }

  /** The template literals of the effect split into separator and piece text. */
  lemma Templates(a: string, b: string, c: string)
    ensures ", by " + a == ", " + ("by " + a)
    ensures ", " + b + " film style" == ", " + (b + " film style")
    ensures ", Time Period: " + c == ", " + ("Time Period: " + c)
    ensures " --tile" == " " + "--tile" && " --style raw" == " " + "--style raw"
    ensures " --ar " + a == " " + ("--ar " + a) && " --no " + b == " " + ("--no " + b)
    ensures " --sref random" == " " + "--sref random" && " --sref " + c == " " + ("--sref " + c)
  {
  }

  // ---------------------------------------------------------------------
  // The component's state
  // ---------------------------------------------------------------------

  /** The component: the form record, the text shown in the prompt box, and the two display flags. */
  class Generator {
    var formData: FormData
    var generatedPrompt: string
    var copied: bool
    var showPrompt: bool

    /** The initial state: the default record, an empty prompt, nothing copied, the prompt card hidden. */
    constructor ()
      ensures formData == Defaults() && generatedPrompt == ""
      ensures !copied && !showPrompt
    {
      formData := Defaults();
      generatedPrompt := "";
      copied := false;
      showPrompt := false;
    }

    /** The input handler: one field takes the new value, and the prompt card is shown. */
    method HandleInputChange(e: Edit)
      modifies this
      ensures formData == Apply(old(formData), e)
      ensures showPrompt
      ensures generatedPrompt == old(generatedPrompt) && copied == old(copied)
    {
      formData := Apply(formData, e);
      showPrompt := true;
    }

    /** The effect that runs whenever the record changes: the prompt box gets the body followed by the parameters. */
    method RefreshPrompt()
      modifies this
      ensures generatedPrompt == Prompt(formData)
      ensures formData == old(formData) && copied == old(copied) && showPrompt == old(showPrompt)
    {
      var prompt := DescribeScene(formData);
      var parameters := CollectParameters(formData);
      generatedPrompt := prompt + parameters;
    }

    /** The prompt box is editable: typing replaces its text and nothing else. */
    method EditPrompt(text: string)
      modifies this
      ensures generatedPrompt == text
      ensures formData == old(formData) && copied == old(copied) && showPrompt == old(showPrompt)
    {
      generatedPrompt := text;
    }

    /** Copying hands the current prompt text to the clipboard and marks it copied. */
    method CopyToClipboard() returns (clip: string)
      modifies this
      ensures clip == generatedPrompt && copied
      ensures formData == old(formData) && generatedPrompt == old(generatedPrompt) && showPrompt == old(showPrompt)
    {
      clip := generatedPrompt;
      copied := true;
    }

    /** The timer callback that clears the copied mark. */
    method ResetCopied()
      modifies this
      ensures !copied
      ensures formData == old(formData) && generatedPrompt == old(generatedPrompt) && showPrompt == old(showPrompt)
    {
      copied := false;
    }
  }

  // ---------------------------------------------------------------------
  // Properties of the prompt
  // ---------------------------------------------------------------------

  /** The descriptive pieces in the order the effect appends them. */
  const BodyOrder: seq<TextField> :=
    [Environment, View, Camera, Lens, Lighting, DescriptorI, DescriptorII, Artist, FilmName, TimeEpoch]

  /** The parameter tokens in the order the effect appends them. */
  const TokenOrder: seq<Token> := [TileToken, StyleRawToken, ArToken, NoToken, SrefRandomToken, SrefToken]

  lemma BodyRanked(fd: FormData)
    ensures Ranked(BodyCandidates(fd), BodyRank)
  {
    var cs := BodyCandidates(fd);
    assert Tags(cs) == BodyOrder;
    forall i | 0 <= i < |cs|
      ensures BodyRank(cs[i].tag) == i
    {
      assert Tags(cs)[i] == cs[i].tag;
    }
    IndexRanked(cs, BodyRank);
  }

  lemma ParamRanked(fd: FormData)
    ensures Ranked(ParamCandidates(fd), TokenRank)
  {
    var cs := ParamCandidates(fd);
    assert Tags(cs) == TokenOrder;
    forall i | 0 <= i < |cs|
      ensures TokenRank(cs[i].tag) == i
    {
      assert Tags(cs)[i] == cs[i].tag;
    }
    IndexRanked(cs, TokenRank);
  }

  /** The descriptive pieces that make it into the prompt, in order. */
  function BodyPieces(fd: FormData): seq<Candidate<TextField>>
  {
    Kept(BodyCandidates(fd))
  }

  /** The parameter tokens that make it into the prompt, in order. */
  function ParamPieces(fd: FormData): seq<Candidate<Token>>
  {
    Kept(ParamCandidates(fd))
  }

  /**
   * Each descriptive piece is present exactly when its field is set, with its
   * own text: environment, artist and film name when non-empty, the others
   * when not "None". Artist and film name have no "None" guard.
   */
  lemma DescriptivePieces(fd: FormData)
    ensures Lookup(BodyPieces(fd), Environment) == if fd.environment != "" then Some(fd.environment) else None
    ensures Lookup(BodyPieces(fd), View) == if fd.view != "None" then Some(fd.view) else None
    ensures Lookup(BodyPieces(fd), Camera) == if fd.camera != "None" then Some(fd.camera) else None
    ensures Lookup(BodyPieces(fd), Lens) == if fd.lens != "None" then Some(fd.lens) else None
    ensures Lookup(BodyPieces(fd), Lighting) == if fd.lighting != "None" then Some(fd.lighting) else None
    ensures Lookup(BodyPieces(fd), DescriptorI) == if fd.descriptorI != "None" then Some(fd.descriptorI) else None
    ensures Lookup(BodyPieces(fd), DescriptorII) == if fd.descriptorII != "None" then Some(fd.descriptorII) else None
    ensures Lookup(BodyPieces(fd), Artist) == if fd.artist != "" then Some("by " + fd.artist) else None
    ensures Lookup(BodyPieces(fd), FilmName) == if fd.filmName != "" then Some(fd.filmName + " film style") else None
    ensures Lookup(BodyPieces(fd), TimeEpoch) == if fd.timeEpoch != "None" then Some("Time Period: " + fd.timeEpoch) else None
  {
    var cs := BodyCandidates(fd);
    BodyRanked(fd);
    LookupKept(cs, BodyRank, 0);
    LookupKept(cs, BodyRank, 1);
    LookupKept(cs, BodyRank, 2);
    LookupKept(cs, BodyRank, 3);
    LookupKept(cs, BodyRank, 4);
    LookupKept(cs, BodyRank, 5);
    LookupKept(cs, BodyRank, 6);
    LookupKept(cs, BodyRank, 7);
    LookupKept(cs, BodyRank, 8);
    LookupKept(cs, BodyRank, 9);
  }

  /** The artist and film dropdowns offer "None", which has no guard here and is printed as a choice. */
  lemma NoneChoicesPrinted(fd: FormData)
    ensures fd.artist == "None" ==> Lookup(BodyPieces(fd), Artist) == Some("by None")
    ensures fd.filmName == "None" ==> Lookup(BodyPieces(fd), FilmName) == Some("None film style")
  {
    DescriptivePieces(fd);
    assert "by " + "None" == "by None";
    assert "None" + " film style" == "None film style";
  }

  /**
   * Each parameter token is present exactly when its trigger holds, with its
   * own text; a random style reference wins over a typed one.
   */
  lemma ParameterTokens(fd: FormData)
    ensures Lookup(ParamPieces(fd), TileToken) == if fd.tile then Some("--tile") else None
    ensures Lookup(ParamPieces(fd), StyleRawToken) == if fd.styleRaw then Some("--style raw") else None
    ensures Lookup(ParamPieces(fd), ArToken) == if fd.aspectRatio != "None" then Some("--ar " + fd.aspectRatio) else None
    ensures Lookup(ParamPieces(fd), NoToken) == if fd.ignoreWords != "" then Some("--no " + fd.ignoreWords) else None
    ensures Lookup(ParamPieces(fd), SrefRandomToken) == if fd.styleRandom then Some("--sref random") else None
    ensures Lookup(ParamPieces(fd), SrefToken) ==
      if !fd.styleRandom && fd.styleReference != "" then Some("--sref " + fd.styleReference) else None
  {
    var cs := ParamCandidates(fd);
    ParamRanked(fd);
    LookupKept(cs, TokenRank, 0);
    LookupKept(cs, TokenRank, 1);
    LookupKept(cs, TokenRank, 2);
    LookupKept(cs, TokenRank, 3);
    LookupKept(cs, TokenRank, 4);
    LookupKept(cs, TokenRank, 5);
  }

  /** At most one style reference token is emitted. */
  lemma OneStyleReference(fd: FormData)
    ensures !(SrefRandomToken in Tags(ParamPieces(fd)) && SrefToken in Tags(ParamPieces(fd)))
  {
    var cs := ParamCandidates(fd);
    ParamRanked(fd);
    KeptTag(cs, TokenRank, 4);
    KeptTag(cs, TokenRank, 5);
  }

  /** The pieces and the tokens that are emitted keep the fixed order. */
  lemma FixedOrder(fd: FormData)
    ensures Ranked(BodyPieces(fd), BodyRank)
    ensures Ranked(ParamPieces(fd), TokenRank)
  {
    BodyRanked(fd);
    ParamRanked(fd);
    KeptRanked(BodyCandidates(fd), BodyRank);
    KeptRanked(ParamCandidates(fd), TokenRank);
  }

  /**
   * The prompt opens with the reference URL and one space when there is one,
   * then always with "medium of subject", whatever the medium is.
   */
  lemma PromptOpening(fd: FormData)
    ensures fd.styleReferenceUrl != "" ==> StartsWith(Prompt(fd), fd.styleReferenceUrl + " " + fd.medium + " of " + fd.subject)
    ensures fd.styleReferenceUrl == "" ==> StartsWith(Prompt(fd), fd.medium + " of " + fd.subject)
  {
    var lead := Lead(fd);
    var rest := Render(BodyPieces(fd), ", ") + Parameters(fd);
    assert Prompt(fd) == lead + rest;
    assert (lead + rest)[..|lead|] == lead;
    if fd.styleReferenceUrl == "" {
      assert lead == fd.medium + " of " + fd.subject;
    }
  }

  /** The parameter candidates as the four plain tokens followed by the two style reference tokens. */
  lemma ParamShape(fd: FormData)
    ensures ParamCandidates(fd) == ParamCandidates(fd)[..4] + [ParamCandidates(fd)[4]] + [ParamCandidates(fd)[5]]
    ensures ParamCandidates(fd)[4] == Candidate(SrefRandomToken, fd.styleRandom, "--sref random")
    ensures ParamCandidates(fd)[5] == Candidate(SrefToken, !fd.styleRandom && fd.styleReference != "", "--sref " + fd.styleReference)
  {
    var cs := ParamCandidates(fd);
    assert cs == cs[..4] + [cs[4]] + [cs[5]];
  }

  /** A random style reference is the last thing in the prompt. */
  lemma RandomReferenceLast(fd: FormData)
    requires fd.styleRandom
    ensures EndsWith(Prompt(fd), " --sref random")
  {
    var cs := ParamCandidates(fd);
    ParamShape(fd);
    LastKeptBeforeSkipped(Body(fd), cs[..4], cs[4], cs[5], " ");
    assert " " + cs[4].text == " --sref random";
  }

  /** Without the random box, a typed style reference is the last thing in the prompt. */
  lemma TypedReferenceLast(fd: FormData)
    requires !fd.styleRandom && fd.styleReference != ""
    ensures EndsWith(Prompt(fd), " --sref " + fd.styleReference)
  {
    var cs := ParamCandidates(fd);
    ParamShape(fd);
    LastKept(Body(fd), cs[..4] + [cs[4]], cs[5], " ");
    assert " " + cs[5].text == " --sref " + fd.styleReference;
  }

  /** The image URL field is held by the form but never read by the effect. */
  lemma ImageUrlUnused(fd: FormData, url: string)
    ensures Prompt(Apply(fd, SetText(ImageUrl, url))) == Prompt(fd)
  {
    var g := Apply(fd, SetText(ImageUrl, url));
    assert Text(g, Medium) == fd.medium;
    assert g == fd.(imageUrl := url);
    assert Lead(g) == Lead(fd);
    assert BodyCandidates(g) == BodyCandidates(fd);
    assert ParamCandidates(g) == ParamCandidates(fd);
  }

  /** The untouched form gives " of " with empty medium and subject, followed only by the default aspect ratio. */
  lemma DefaultPrompt()
    ensures Prompt(Defaults()) == " of  --ar 16:9"
  {
    DefaultBody();
    DefaultParameters();
    DefaultJoined(Body(Defaults()), Parameters(Defaults()));
  }

  lemma DefaultJoined(b: string, p: string)
    requires b == " of " && p == " --ar 16:9"
    ensures b + p == " of  --ar 16:9"
  {
  }

  lemma DefaultBody()
    ensures Body(Defaults()) == " of "
  {
    var fd := Defaults();
    var cs := BodyCandidates(fd);
    assert forall i :: 0 <= i < |cs| ==> !cs[i].enabled;
    KeptNone(cs);
    assert Lead(fd) == "" + "" + " of " + "";
  }

  lemma DefaultParameters()
    ensures Parameters(Defaults()) == " --ar 16:9"
  {
    var fd := Defaults();
    var cs := ParamCandidates(fd);
    ParamShape(fd);
    var flags := cs[..4];
    assert flags == cs[..2] + [cs[2]] + [cs[3]];
    KeptNone(cs[..2]);
    KeptSnoc(cs[..2], cs[2]);
    KeptSnoc(cs[..2] + [cs[2]], cs[3]);
    KeptSnoc(flags, cs[4]);
    KeptSnoc(flags + [cs[4]], cs[5]);
    assert Kept(cs) == [cs[2]];
  }
}
