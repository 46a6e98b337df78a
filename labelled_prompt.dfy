/**
 * The prompt builder of src/components/prompt-generator.tsx.
 *
 * The "Generate Prompt Output" button builds the prompt in one accumulator:
 * it opens with "medium of subject" (or the subject alone when the medium is
 * "None"), appends each descriptive piece behind " , " (some with a label),
 * then each flag behind " ", and stores the result in the prompt box. Editing
 * the form does not regenerate the prompt; copying marks it copied.
 */
module LabelledPrompt {
  import opened Segments

  /** The text and dropdown fields of the form. */
  datatype TextField =
    | Subject | ImageUrl | AspectRatio | Medium | View | Camera | Lens | Film
    | Lighting | BackgroundColor | DescriptorI | DescriptorII | Artist | FilmName
    | StyleReference | IgnoreWords

  /** The checkbox fields of the form. */
  datatype FlagField = StyleRandom | Tile | StyleRaw

  datatype FormData = FormData(
    subject: string,
    imageUrl: string,
    aspectRatio: string,
    medium: string,
    view: string,
    camera: string,
    lens: string,
    film: string,
    lighting: string,
    backgroundColor: string,
    descriptorI: string,
    descriptorII: string,
    artist: string,
    filmName: string,
    styleReference: string,
    styleRandom: bool,
    ignoreWords: string,
    tile: bool,
    styleRaw: bool)

  /** The record the component starts with. */
  function Defaults(): FormData
  {
    FormData(
      subject := "", imageUrl := "", aspectRatio := "1:1", medium := "None",
      view := "None", camera := "None", lens := "None", film := "None",
      lighting := "None", backgroundColor := "None", descriptorI := "None", descriptorII := "None",
      artist := "", filmName := "", styleReference := "", styleRandom := false,
      ignoreWords := "", tile := false, styleRaw := false)
  }

  function Text(fd: FormData, f: TextField): string
  {
    match f
    case Subject => fd.subject
    case ImageUrl => fd.imageUrl
    case AspectRatio => fd.aspectRatio
    case Medium => fd.medium
    case View => fd.view
    case Camera => fd.camera
    case Lens => fd.lens
    case Film => fd.film
    case Lighting => fd.lighting
    case BackgroundColor => fd.backgroundColor
    case DescriptorI => fd.descriptorI
    case DescriptorII => fd.descriptorII
    case Artist => fd.artist
    case FilmName => fd.filmName
    case StyleReference => fd.styleReference
    case IgnoreWords => fd.ignoreWords
  }

  function Flag(fd: FormData, f: FlagField): bool
  {
    match f
    case StyleRandom => fd.styleRandom
    case Tile => fd.tile
    case StyleRaw => fd.styleRaw
  }

  /** One call of the input handler: a text or dropdown field gets a string, a checkbox gets a boolean. */
  datatype Edit = SetText(field: TextField, text: string) | SetFlag(flag: FlagField, on: bool)

  /** The record after `{ ...prev, [field]: value }`: the edited field holds the new value and every other field is unchanged. */
  function Apply(fd: FormData, e: Edit): (r: FormData)
    ensures forall g :: Text(r, g) == if e.SetText? && e.field == g then e.text else Text(fd, g)
    ensures forall g :: Flag(r, g) == if e.SetFlag? && e.flag == g then e.on else Flag(fd, g)
  {
    match e
    case SetText(f, s) => (
      match f
      case Subject => fd.(subject := s)
      case ImageUrl => fd.(imageUrl := s)
      case AspectRatio => fd.(aspectRatio := s)
      case Medium => fd.(medium := s)
      case View => fd.(view := s)
      case Camera => fd.(camera := s)
      case Lens => fd.(lens := s)
      case Film => fd.(film := s)
      case Lighting => fd.(lighting := s)
      case BackgroundColor => fd.(backgroundColor := s)
      case DescriptorI => fd.(descriptorI := s)
      case DescriptorII => fd.(descriptorII := s)
      case Artist => fd.(artist := s)
      case FilmName => fd.(filmName := s)
      case StyleReference => fd.(styleReference := s)
      case IgnoreWords => fd.(ignoreWords := s))
    case SetFlag(f, b) => (
      match f
      case StyleRandom => fd.(styleRandom := b)
      case Tile => fd.(tile := b)
      case StyleRaw => fd.(styleRaw := b))
  }

  /** Two records that agree on every field are the same record, so `Apply`'s contract fixes its result. */
  lemma SameFields(a: FormData, b: FormData)
    requires forall g :: Text(a, g) == Text(b, g)
    requires forall g :: Flag(a, g) == Flag(b, g)
    ensures a == b
  {
    assert Text(a, Subject) == Text(b, Subject) && Text(a, ImageUrl) == Text(b, ImageUrl);
    assert Text(a, AspectRatio) == Text(b, AspectRatio) && Text(a, Medium) == Text(b, Medium);
    assert Text(a, View) == Text(b, View) && Text(a, Camera) == Text(b, Camera);
    assert Text(a, Lens) == Text(b, Lens) && Text(a, Film) == Text(b, Film);
    assert Text(a, Lighting) == Text(b, Lighting) && Text(a, BackgroundColor) == Text(b, BackgroundColor);
    assert Text(a, DescriptorI) == Text(b, DescriptorI) && Text(a, DescriptorII) == Text(b, DescriptorII);
    assert Text(a, Artist) == Text(b, Artist) && Text(a, FilmName) == Text(b, FilmName);
    assert Text(a, StyleReference) == Text(b, StyleReference) && Text(a, IgnoreWords) == Text(b, IgnoreWords);
    assert Flag(a, StyleRandom) == Flag(b, StyleRandom);
    assert Flag(a, Tile) == Flag(b, Tile) && Flag(a, StyleRaw) == Flag(b, StyleRaw);
  }

  /** Setting a field to the value it already holds leaves the record as it was. */
  lemma ApplyUnchanged(fd: FormData, e: Edit)
    requires e.SetText? ==> Text(fd, e.field) == e.text
    requires e.SetFlag? ==> Flag(fd, e.flag) == e.on
    ensures Apply(fd, e) == fd
  {
    SameFields(Apply(fd, e), fd);
  }

  // ---------------------------------------------------------------------
  // The prompt, as a specification
  // ---------------------------------------------------------------------

  /** The opening: "medium of subject", or the subject alone when the medium is "None". */
  function Opening(fd: FormData): string
  {
    if fd.medium != "None" then fd.medium + " of " + fd.subject else fd.subject
  }

  /** The artist and the labelled composition pieces. */
  function CompositionCandidates(fd: FormData): seq<Candidate<TextField>>
  {
    [Candidate(Artist, fd.artist != "", "by " + fd.artist)]
    + [Candidate(View, fd.view != "None", "View: " + fd.view)]
    + [Candidate(Camera, fd.camera != "None", "Camera: " + fd.camera)]
    + [Candidate(Lens, fd.lens != "None", "Lens: " + fd.lens)]
  }

  /** The film, descriptors, lighting and film name pieces. */
  function StyleCandidates(fd: FormData): seq<Candidate<TextField>>
  {
    [Candidate(Film, fd.film != "None", fd.film)]
    + [Candidate(DescriptorI, fd.descriptorI != "None", fd.descriptorI)]
    + [Candidate(DescriptorII, fd.descriptorII != "None", fd.descriptorII)]
    + [Candidate(Lighting, fd.lighting != "None", fd.lighting)]
    + [Candidate(FilmName, fd.filmName != "", fd.filmName + " film style")]
  }

  /** The descriptive pieces in their fixed order, each with its trigger. */
  function DescriptionCandidates(fd: FormData): seq<Candidate<TextField>>
  {
    CompositionCandidates(fd) + StyleCandidates(fd)
  }

  function DescriptionRank(f: TextField): nat
  {
    match f
    case Artist => 0
    case View => 1
    case Camera => 2
    case Lens => 3
    case Film => 4
    case DescriptorI => 5
    case DescriptorII => 6
    case Lighting => 7
    case FilmName => 8
    case _ => 9
  }

  /** The flags. */
  datatype Token = TileToken | StyleRawToken | ArToken | NoToken | ImageSrefToken | SrefRandomToken | SrefToken

  /** The tiling, raw style, aspect ratio and ignore-words flags. */
  function PlainFlagCandidates(fd: FormData): seq<Candidate<Token>>
  {
    [Candidate(TileToken, fd.tile, "--tile")]
    + [Candidate(StyleRawToken, fd.styleRaw, "--style raw")]
    + [Candidate(ArToken, fd.aspectRatio != "None", "--ar " + fd.aspectRatio)]
    + [Candidate(NoToken, fd.ignoreWords != "", "--no " + fd.ignoreWords)]
  }

  /** The style references; the image URL reference is independent of the other two. */
  function ReferenceCandidates(fd: FormData): seq<Candidate<Token>>
  {
    [Candidate(ImageSrefToken, fd.imageUrl != "", "--sref " + fd.imageUrl)]
    + [Candidate(SrefRandomToken, fd.styleRandom, "--sref random")]
    + [Candidate(SrefToken, !fd.styleRandom && fd.styleReference != "", "--sref " + fd.styleReference)]
  }

  /** The flags in their fixed order, each with its trigger. */
  function FlagCandidates(fd: FormData): seq<Candidate<Token>>
  {
    PlainFlagCandidates(fd) + ReferenceCandidates(fd)
  }

  function TokenRank(t: Token): nat
  {
    match t
    case TileToken => 0
    case StyleRawToken => 1
    case ArToken => 2
    case NoToken => 3
    case ImageSrefToken => 4
    case SrefRandomToken => 5
    case SrefToken => 6
  }

  /** The descriptive pieces that make it into the prompt, in order. */
  function DescriptionPieces(fd: FormData): seq<Candidate<TextField>>
  {
    Kept(DescriptionCandidates(fd))
  }

  /** The flags that make it into the prompt, in order. */
  function FlagPieces(fd: FormData): seq<Candidate<Token>>
  {
    Kept(FlagCandidates(fd))
  }

  /** The generated prompt: the opening, each present piece behind " , ", each present flag behind " ". */
  function Prompt(fd: FormData): string
  {
    Opening(fd) + Render(DescriptionPieces(fd), " , ") + Render(FlagPieces(fd), " ")
  }

  // ---------------------------------------------------------------------
  // The button handler, as written
  // ---------------------------------------------------------------------

  /** The opening and the descriptive appends. */
  method Describe(fd: FormData) returns (prompt: string)
    ensures prompt == Opening(fd) + Render(DescriptionPieces(fd), " , ")
  {
    if fd.medium != "None" {
      prompt := fd.medium + " of " + fd.subject;
    } else {
      prompt := fd.subject;
    }
    ghost var opening := prompt;
    prompt := AppendComposition(fd, prompt);
    ghost var composed := prompt;
    prompt := AppendStyle(fd, prompt);
    Described(fd, opening, composed, prompt);
  }

  /** The artist, view, camera and lens appends. */
  method AppendComposition(fd: FormData, acc: string) returns (prompt: string)
    ensures prompt == acc + Render(Kept(CompositionCandidates(fd)), " , ")
  {
    ghost var c0 := Candidate(Artist, fd.artist != "", "by " + fd.artist);
    ghost var c1 := Candidate(View, fd.view != "None", "View: " + fd.view);
    ghost var c2 := Candidate(Camera, fd.camera != "None", "Camera: " + fd.camera);
    ghost var c3 := Candidate(Lens, fd.lens != "None", "Lens: " + fd.lens);
    ghost var done: seq<Candidate<TextField>> := [];
    assert done + [c0] + [c1] + [c2] + [c3] == CompositionCandidates(fd);
    Labels(fd.artist, fd.view, fd.camera, fd.lens);

    prompt := acc;
    AppendStep(prompt, " , by " + fd.artist, acc, done, c0, " , ");
    if fd.artist != "" { prompt := prompt + (" , by " + fd.artist); }
    done := done + [c0];
    AppendStep(prompt, " , View: " + fd.view, acc, done, c1, " , ");
    if fd.view != "None" { prompt := prompt + (" , View: " + fd.view); }
    done := done + [c1];
    AppendStep(prompt, " , Camera: " + fd.camera, acc, done, c2, " , ");
    if fd.camera != "None" { prompt := prompt + (" , Camera: " + fd.camera); }
    done := done + [c2];
    AppendStep(prompt, " , Lens: " + fd.lens, acc, done, c3, " , ");
    if fd.lens != "None" { prompt := prompt + (" , Lens: " + fd.lens); }
  }

  /** The film, descriptor, lighting and film name appends. */
  method AppendStyle(fd: FormData, acc: string) returns (prompt: string)
    ensures prompt == acc + Render(Kept(StyleCandidates(fd)), " , ")
  {
    ghost var c0 := Candidate(Film, fd.film != "None", fd.film);
    ghost var c1 := Candidate(DescriptorI, fd.descriptorI != "None", fd.descriptorI);
    ghost var c2 := Candidate(DescriptorII, fd.descriptorII != "None", fd.descriptorII);
    ghost var c3 := Candidate(Lighting, fd.lighting != "None", fd.lighting);
    ghost var c4 := Candidate(FilmName, fd.filmName != "", fd.filmName + " film style");
    ghost var done: seq<Candidate<TextField>> := [];
    assert done + [c0] + [c1] + [c2] + [c3] + [c4] == StyleCandidates(fd);
    FilmStyleTemplate(fd.filmName);

    prompt := acc;
    AppendStep(prompt, " , " + fd.film, acc, done, c0, " , ");
    if fd.film != "None" { prompt := prompt + (" , " + fd.film); }
    done := done + [c0];
    AppendStep(prompt, " , " + fd.descriptorI, acc, done, c1, " , ");
    if fd.descriptorI != "None" { prompt := prompt + (" , " + fd.descriptorI); }
    done := done + [c1];
    AppendStep(prompt, " , " + fd.descriptorII, acc, done, c2, " , ");
    if fd.descriptorII != "None" { prompt := prompt + (" , " + fd.descriptorII); }
    done := done + [c2];
    AppendStep(prompt, " , " + fd.lighting, acc, done, c3, " , ");
    if fd.lighting != "None" { prompt := prompt + (" , " + fd.lighting); }
    done := done + [c3];
    AppendStep(prompt, " , " + fd.filmName + " film style", acc, done, c4, " , ");
    if fd.filmName != "" { prompt := prompt + (" , " + fd.filmName + " film style"); }
  }

  /** The flag appends, at the end of the prompt. */
  method AppendFlags(fd: FormData, acc: string) returns (prompt: string)
    ensures prompt == acc + Render(FlagPieces(fd), " ")
  {
    var plain := AppendPlainFlags(fd, acc);
    prompt := AppendReferences(fd, plain);
    ghost var p, r := PlainFlagCandidates(fd), ReferenceCandidates(fd);
    RenderKeptConcat(p, r, " ");
    ConcatAssoc(acc, Render(Kept(p), " "), Render(Kept(r), " "));
  }

  /** The tiling, raw style, aspect ratio and ignore-words appends. */
  method AppendPlainFlags(fd: FormData, acc: string) returns (prompt: string)
    ensures prompt == acc + Render(Kept(PlainFlagCandidates(fd)), " ")
  {
    ghost var t0 := Candidate(TileToken, fd.tile, "--tile");
    ghost var t1 := Candidate(StyleRawToken, fd.styleRaw, "--style raw");
    ghost var t2 := Candidate(ArToken, fd.aspectRatio != "None", "--ar " + fd.aspectRatio);
    ghost var t3 := Candidate(NoToken, fd.ignoreWords != "", "--no " + fd.ignoreWords);
    ghost var done: seq<Candidate<Token>> := [];
    assert done + [t0] + [t1] + [t2] + [t3] == PlainFlagCandidates(fd);
    FlagTemplates(fd.aspectRatio, fd.ignoreWords, fd.imageUrl, fd.styleReference);

    prompt := acc;
    AppendStep(prompt, " --tile", acc, done, t0, " ");
    if fd.tile { prompt := prompt + " --tile"; }
    done := done + [t0];
    AppendStep(prompt, " --style raw", acc, done, t1, " ");
    if fd.styleRaw { prompt := prompt + " --style raw"; }
    done := done + [t1];
    AppendStep(prompt, " --ar " + fd.aspectRatio, acc, done, t2, " ");
    if fd.aspectRatio != "None" { prompt := prompt + (" --ar " + fd.aspectRatio); }
    done := done + [t2];
    AppendStep(prompt, " --no " + fd.ignoreWords, acc, done, t3, " ");
    if fd.ignoreWords != "" { prompt := prompt + (" --no " + fd.ignoreWords); }
  }

  /** The style reference appends: the image URL, then either random or the typed reference. */
  method AppendReferences(fd: FormData, acc: string) returns (prompt: string)
    ensures prompt == acc + Render(Kept(ReferenceCandidates(fd)), " ")
  {
    ghost var t4 := Candidate(ImageSrefToken, fd.imageUrl != "", "--sref " + fd.imageUrl);
    ghost var t5 := Candidate(SrefRandomToken, fd.styleRandom, "--sref random");
    ghost var t6 := Candidate(SrefToken, !fd.styleRandom && fd.styleReference != "", "--sref " + fd.styleReference);
    ghost var done: seq<Candidate<Token>> := [];
    assert done + [t4] + [t5] + [t6] == ReferenceCandidates(fd);
    FlagTemplates(fd.aspectRatio, fd.ignoreWords, fd.imageUrl, fd.styleReference);

    prompt := acc;
    AppendStep(prompt, " --sref " + fd.imageUrl, acc, done, t4, " ");
    if fd.imageUrl != "" { prompt := prompt + (" --sref " + fd.imageUrl); }
    done := done + [t4];
    AppendStep(prompt, " --sref random", acc, done, t5, " ");
    done := done + [t5];
    if fd.styleRandom {
      prompt := prompt + " --sref random";
      AppendStep(prompt, " --sref " + fd.styleReference, acc, done, t6, " ");
    } else {
      AppendStep(prompt, " --sref " + fd.styleReference, acc, done, t6, " ");
      if fd.styleReference != "" {
        prompt := prompt + (" --sref " + fd.styleReference);
      }
    }
  }

  /** The two descriptive sections, appended one after the other, render all the descriptive pieces. */
  lemma Described(fd: FormData, opening: string, composed: string, prompt: string)
    requires opening == Opening(fd)
    requires composed == opening + Render(Kept(CompositionCandidates(fd)), " , ")
    requires prompt == composed + Render(Kept(StyleCandidates(fd)), " , ")
    ensures prompt == Opening(fd) + Render(DescriptionPieces(fd), " , ")
  {
    var c, y := CompositionCandidates(fd), StyleCandidates(fd);
    RenderKeptConcat(c, y, " , ");
    var rc, ry := Render(Kept(c), " , "), Render(Kept(y), " , ");
    ConcatAssoc(opening, rc, ry);
  }

  /** The template literals of the descriptive appends split into separator and piece text. */
  lemma Labels(a: string, v: string, c: string, l: string)
    ensures " , by " + a == " , " + ("by " + a)
    ensures " , View: " + v == " , " + ("View: " + v)
    ensures " , Camera: " + c == " , " + ("Camera: " + c)
    ensures " , Lens: " + l == " , " + ("Lens: " + l)
  {
  }

  lemma FilmStyleTemplate(n: string)
    ensures " , " + n + " film style" == " , " + (n + " film style")
  {
  }

  /** The template literals of the flag appends split into separator and token text. */
  lemma FlagTemplates(ar: string, no: string, url: string, sref: string)
    ensures " --tile" == " " + "--tile" && " --style raw" == " " + "--style raw"
    ensures " --ar " + ar == " " + ("--ar " + ar) && " --no " + no == " " + ("--no " + no)
    ensures " --sref " + url == " " + ("--sref " + url) && " --sref " + sref == " " + ("--sref " + sref)
    ensures " --sref random" == " " + "--sref random"
  {
  }

  // ---------------------------------------------------------------------
  // The component's state
  // ---------------------------------------------------------------------

  /** The component: the form record, the text in the prompt box, and the copied mark. */
  class Generator {
    var formData: FormData
    var generatedPrompt: string
    var copied: bool

    constructor ()
      ensures formData == Defaults() && generatedPrompt == "" && !copied
    {
      formData := Defaults();
      generatedPrompt := "";
      copied := false;
    }

    /** The input handler: one field takes the new value; the prompt box keeps its old text until the button is pressed. */
    method HandleInputChange(e: Edit)
      modifies this
      ensures formData == Apply(old(formData), e)
      ensures generatedPrompt == old(generatedPrompt) && copied == old(copied)
    {
      formData := Apply(formData, e);
    }

    /** The button handler: builds the prompt from the record and stores it, changing no form field. */
    method GeneratePrompt()
      modifies this
      ensures generatedPrompt == Prompt(formData)
      ensures formData == old(formData) && copied == old(copied)
    {
      var prompt := Describe(formData);
      prompt := AppendFlags(formData, prompt);
      generatedPrompt := prompt;
    }

    /** The prompt box is editable: typing replaces its text and nothing else. */
    method EditPrompt(text: string)
      modifies this
      ensures generatedPrompt == text
      ensures formData == old(formData) && copied == old(copied)
    {
      generatedPrompt := text;
    }

    /** Copying hands the current prompt text to the clipboard and marks it copied. */
    method CopyToClipboard() returns (clip: string)
      modifies this
      ensures clip == generatedPrompt && copied
      ensures formData == old(formData) && generatedPrompt == old(generatedPrompt)
    {
      clip := generatedPrompt;
      copied := true;
    }

    /** The timer callback that clears the copied mark. */
    method ResetCopied()
      modifies this
      ensures !copied
      ensures formData == old(formData) && generatedPrompt == old(generatedPrompt)
    {
      copied := false;
    }
  }

  // ---------------------------------------------------------------------
  // Properties of the prompt
  // ---------------------------------------------------------------------

  /** The descriptive pieces in the order the handler appends them. */
  const DescriptionOrder: seq<TextField> :=
    [Artist, View, Camera, Lens, Film, DescriptorI, DescriptorII, Lighting, FilmName]

  /** The flags in the order the handler appends them. */
  const TokenOrder: seq<Token> :=
    [TileToken, StyleRawToken, ArToken, NoToken, ImageSrefToken, SrefRandomToken, SrefToken]

  lemma DescriptionRanked(fd: FormData)
    ensures Ranked(DescriptionCandidates(fd), DescriptionRank)
  {
    var cs := DescriptionCandidates(fd);
    assert Tags(cs) == DescriptionOrder;
    forall i | 0 <= i < |cs|
      ensures DescriptionRank(cs[i].tag) == i
    {
      assert Tags(cs)[i] == cs[i].tag;
    }
    IndexRanked(cs, DescriptionRank);
  }

  lemma FlagsRanked(fd: FormData)
    ensures Ranked(FlagCandidates(fd), TokenRank)
  {
    var cs := FlagCandidates(fd);
    assert Tags(cs) == TokenOrder;
    forall i | 0 <= i < |cs|
      ensures TokenRank(cs[i].tag) == i
    {
      assert Tags(cs)[i] == cs[i].tag;
    }
    IndexRanked(cs, TokenRank);
  }

  /** The prompt opens with "medium of subject", or with the subject alone when the medium is "None". */
  lemma PromptOpening(fd: FormData)
    ensures fd.medium != "None" ==> StartsWith(Prompt(fd), fd.medium + " of " + fd.subject)
    ensures fd.medium == "None" ==> StartsWith(Prompt(fd), fd.subject)
  {
    var o := Opening(fd);
    var rest := Render(DescriptionPieces(fd), " , ") + Render(FlagPieces(fd), " ");
    assert Prompt(fd) == o + rest;
    assert (o + rest)[..|o|] == o;
  }

  /**
   * Each descriptive piece is present exactly when its field is set, with its
   * own text: view, camera and lens carry their labels, artist is written
   * "by <artist>" and the film name "<name> film style".
   */
  lemma DescriptivePieces(fd: FormData)
    ensures Lookup(DescriptionPieces(fd), Artist) == if fd.artist != "" then Some("by " + fd.artist) else None
    ensures Lookup(DescriptionPieces(fd), View) == if fd.view != "None" then Some("View: " + fd.view) else None
    ensures Lookup(DescriptionPieces(fd), Camera) == if fd.camera != "None" then Some("Camera: " + fd.camera) else None
    ensures Lookup(DescriptionPieces(fd), Lens) == if fd.lens != "None" then Some("Lens: " + fd.lens) else None
    ensures Lookup(DescriptionPieces(fd), Film) == if fd.film != "None" then Some(fd.film) else None
    ensures Lookup(DescriptionPieces(fd), DescriptorI) == if fd.descriptorI != "None" then Some(fd.descriptorI) else None
    ensures Lookup(DescriptionPieces(fd), DescriptorII) == if fd.descriptorII != "None" then Some(fd.descriptorII) else None
    ensures Lookup(DescriptionPieces(fd), Lighting) == if fd.lighting != "None" then Some(fd.lighting) else None
    ensures Lookup(DescriptionPieces(fd), FilmName) == if fd.filmName != "" then Some(fd.filmName + " film style") else None
  {
    var cs := DescriptionCandidates(fd);
    DescriptionRanked(fd);
    LookupKept(cs, DescriptionRank, 0);
    LookupKept(cs, DescriptionRank, 1);
    LookupKept(cs, DescriptionRank, 2);
    LookupKept(cs, DescriptionRank, 3);
    LookupKept(cs, DescriptionRank, 4);
    LookupKept(cs, DescriptionRank, 5);
    LookupKept(cs, DescriptionRank, 6);
    LookupKept(cs, DescriptionRank, 7);
    LookupKept(cs, DescriptionRank, 8);
  }

  /** Each flag is present exactly when its trigger holds, with its own text. */
  lemma FlagTokens(fd: FormData)
    ensures Lookup(FlagPieces(fd), TileToken) == if fd.tile then Some("--tile") else None
    ensures Lookup(FlagPieces(fd), StyleRawToken) == if fd.styleRaw then Some("--style raw") else None
    ensures Lookup(FlagPieces(fd), ArToken) == if fd.aspectRatio != "None" then Some("--ar " + fd.aspectRatio) else None
    ensures Lookup(FlagPieces(fd), NoToken) == if fd.ignoreWords != "" then Some("--no " + fd.ignoreWords) else None
    ensures Lookup(FlagPieces(fd), ImageSrefToken) == if fd.imageUrl != "" then Some("--sref " + fd.imageUrl) else None
    ensures Lookup(FlagPieces(fd), SrefRandomToken) == if fd.styleRandom then Some("--sref random") else None
    ensures Lookup(FlagPieces(fd), SrefToken) ==
      if !fd.styleRandom && fd.styleReference != "" then Some("--sref " + fd.styleReference) else None
  {
    var cs := FlagCandidates(fd);
    FlagsRanked(fd);
    LookupKept(cs, TokenRank, 0);
    LookupKept(cs, TokenRank, 1);
    LookupKept(cs, TokenRank, 2);
    LookupKept(cs, TokenRank, 3);
    LookupKept(cs, TokenRank, 4);
    LookupKept(cs, TokenRank, 5);
    LookupKept(cs, TokenRank, 6);
  }

  /**
   * The image URL reference does not exclude the other style reference: with
   * an image URL and either the random box or a typed reference, two --sref
   * flags are written. The random box and a typed reference never both are.
   */
  lemma StyleReferences(fd: FormData)
    ensures fd.imageUrl != "" && fd.styleRandom ==>
      ImageSrefToken in Tags(FlagPieces(fd)) && SrefRandomToken in Tags(FlagPieces(fd))
    ensures fd.imageUrl != "" && fd.styleReference != "" ==>
      ImageSrefToken in Tags(FlagPieces(fd)) && (SrefRandomToken in Tags(FlagPieces(fd)) || SrefToken in Tags(FlagPieces(fd)))
    ensures !(SrefRandomToken in Tags(FlagPieces(fd)) && SrefToken in Tags(FlagPieces(fd)))
  {
    var cs := FlagCandidates(fd);
    FlagsRanked(fd);
    KeptTag(cs, TokenRank, 4);
    KeptTag(cs, TokenRank, 5);
    KeptTag(cs, TokenRank, 6);
  }

  /** The pieces and the flags that are written keep the fixed order. */
  lemma FixedOrder(fd: FormData)
    ensures Ranked(DescriptionPieces(fd), DescriptionRank)
    ensures Ranked(FlagPieces(fd), TokenRank)
  {
    DescriptionRanked(fd);
    FlagsRanked(fd);
    KeptRanked(DescriptionCandidates(fd), DescriptionRank);
    KeptRanked(FlagCandidates(fd), TokenRank);
  }

  /** The background colour is held by the form but never read by the button handler. */
  lemma BackgroundColorUnused(fd: FormData, color: string)
    ensures Prompt(Apply(fd, SetText(BackgroundColor, color))) == Prompt(fd)
  {
    var g := Apply(fd, SetText(BackgroundColor, color));
    assert Text(g, Subject) == fd.subject;
    assert g == fd.(backgroundColor := color);
    assert Opening(g) == Opening(fd);
    assert DescriptionCandidates(g) == DescriptionCandidates(fd);
    assert FlagCandidates(g) == FlagCandidates(fd);
  }

  /** A random style reference is the last thing in the prompt. */
  lemma RandomReferenceLast(fd: FormData)
    requires fd.styleRandom
    ensures EndsWith(Prompt(fd), " --sref random")
  {
    var ks := FlagPieces(fd);
    RandomFlagLast(fd);
    assert " " + ks[|ks| - 1].text == " --sref random";
    EndsWithExtend(Opening(fd) + Render(DescriptionPieces(fd), " , "), Render(ks, " "), " --sref random");
  }

  /** With the random box ticked, the random reference is the last flag kept: the typed one is skipped. */
  lemma RandomFlagLast(fd: FormData)
    requires fd.styleRandom
    ensures FlagPieces(fd) != []
    ensures FlagPieces(fd)[|FlagPieces(fd)| - 1] == Candidate(SrefRandomToken, true, "--sref random")
  {
    var p, r := PlainFlagCandidates(fd), ReferenceCandidates(fd);
    KeptConcat(p, r);
    assert r == [r[0]] + [r[1]] + [r[2]];
    KeptSnoc([r[0]] + [r[1]], r[2]);
    KeptSnoc([r[0]], r[1]);
  }

  /** The untouched form, once generated, gives only the default aspect ratio. */
  lemma DefaultPrompt(fd: FormData)
    requires fd == Defaults()
    ensures Prompt(fd) == " --ar 1:1"
  {
    DefaultDescription(fd);
    DefaultFlags(fd);
    DefaultJoined(Opening(fd), Render(DescriptionPieces(fd), " , "), Render(FlagPieces(fd), " "));
  }

  lemma DefaultDescription(fd: FormData)
    requires fd == Defaults()
    ensures Opening(fd) == "" && DescriptionPieces(fd) == []
  {
    var cs := DescriptionCandidates(fd);
    assert forall i :: 0 <= i < |cs| ==> !cs[i].enabled;
    KeptNone(cs);
  }

  lemma DefaultFlags(fd: FormData)
    requires fd == Defaults()
    ensures Render(FlagPieces(fd), " ") == " " + "--ar " + "1:1"
  {
    var cs := FlagCandidates(fd);
    var head, c, tail := cs[..2], cs[2], cs[3..];
    assert cs == head + [c] + tail;
    KeptNone(head);
    KeptNone(tail);
    KeptSnoc(head, c);
    KeptConcat(head + [c], tail);
    RenderSnoc([], c, " ");
    assert [] + [c] == [c];
  }

  lemma DefaultJoined(o: string, d: string, f: string)
    requires o == "" && d == "" && f == " " + "--ar " + "1:1"
    ensures o + d + f == " --ar 1:1"
  {
  }
}
