/**
 The Program draft (a limited-partner organization profile) and the field
 edits the form applies to it. Every edit is a copy of the draft with one
 key replaced, either at top level or inside one of the three nested groups
 `primary_contact`, `regulatory_flags` and `marketing_eligibility`.
 */
module ProgramRecord {

  datatype Contact = Contact(name: string, title: string, email: string, phone: string)

  /** `regulatory_flags`: four checkboxes and a free-text `Other`. */
  datatype RegulatoryFlags = RegulatoryFlags(erisa: bool, aifmd: bool, sfdrArt8or9: bool, foia: bool, other: string)

  /** `marketing_eligibility`: one label per region, kept as the string the form writes. */
  datatype Eligibility = Eligibility(na: string, eu: string, uk: string, apac: string)

  datatype Program = Program(
    organizationName: string,
    organizationType: string,
    organizationTypeOther: string,
    website: string,
    primaryContact: Contact,
    domicileRegion: string,
    regulatoryFlags: RegulatoryFlags,
    marketingEligibility: Eligibility)

  datatype ContactField = Name | Title | Email | Phone
  datatype Flag = ERISA | AIFMD | SFDR_Art_8_9 | FOIA
  datatype Region = NA | EU | UK | APAC

  /** The two buttons of an eligibility toggle; each writes its own label. */
  datatype EligibilityChoice = Eligible | NotEligible {
    function Label(): string {
      match this
      case Eligible => "Eligible"
      case NotEligible => "Not eligible"
    }
  }

  /** The labels of the eligibility buttons, in button order. */
  const EligibilityLabels: seq<string> := [Eligible.Label(), NotEligible.Label()]

  /** The organization type under which the form asks for a free-text type. */
  const OtherType: string := "Other"

  /** The draft the form starts from. */
  const Initial: Program := Program(
    "", "Public pension", "", "",
    Contact("", "", "", ""),
    "US",
    RegulatoryFlags(false, false, false, false, ""),
    Eligibility("Eligible", "Eligible", "Eligible", "Eligible"))

  /** One `onChange` handler of the Program form, with the value the input delivered. */
  datatype ProgramEdit =
    | SetOrganizationName(text: string)
    | SetOrganizationType(text: string)
    | SetOrganizationTypeOther(text: string)
    | SetWebsite(text: string)
    | SetContact(field: ContactField, text: string)
    | SetDomicileRegion(text: string)
    | SetFlag(flag: Flag, checked: bool)
    | SetFlagOther(text: string)
    | SetEligibility(region: Region, choice: EligibilityChoice)

  /** The address of one leaf key of a Program. */
  datatype Path =
    | OrganizationName
    | OrganizationType
    | OrganizationTypeOther
    | Website
    | ContactKey(field: ContactField)
    | DomicileRegion
    | FlagKey(flag: Flag)
    | FlagOther
    | RegionKey(region: Region)

  /** A leaf value: a string or a checkbox state. */
  datatype Value = Text(text: string) | Checked(checked: bool)

  function ContactAt(c: Contact, f: ContactField): string {
    match f
    case Name => c.name
    case Title => c.title
    case Email => c.email
    case Phone => c.phone
  }

  function FlagAt(g: RegulatoryFlags, f: Flag): bool {
    match f
    case ERISA => g.erisa
    case AIFMD => g.aifmd
    case SFDR_Art_8_9 => g.sfdrArt8or9
    case FOIA => g.foia
  }

  function EligibilityAt(e: Eligibility, r: Region): string {
    match r
    case NA => e.na
    case EU => e.eu
    case UK => e.uk
    case APAC => e.apac
  }

  /** The value stored at `path`. */
  function Get(p: Program, path: Path): Value {
    match path
    case OrganizationName => Text(p.organizationName)
    case OrganizationType => Text(p.organizationType)
    case OrganizationTypeOther => Text(p.organizationTypeOther)
    case Website => Text(p.website)
    case ContactKey(f) => Text(ContactAt(p.primaryContact, f))
    case DomicileRegion => Text(p.domicileRegion)
    case FlagKey(f) => Checked(FlagAt(p.regulatoryFlags, f))
    case FlagOther => Text(p.regulatoryFlags.other)
    case RegionKey(r) => Text(EligibilityAt(p.marketingEligibility, r))
  }

  /** The key an edit writes. */
  function Target(e: ProgramEdit): Path {
    match e
    case SetOrganizationName(_) => OrganizationName
    case SetOrganizationType(_) => OrganizationType
    case SetOrganizationTypeOther(_) => OrganizationTypeOther
    case SetWebsite(_) => Website
    case SetContact(f, _) => ContactKey(f)
    case SetDomicileRegion(_) => DomicileRegion
    case SetFlag(f, _) => FlagKey(f)
    case SetFlagOther(_) => FlagOther
    case SetEligibility(r, _) => RegionKey(r)
  }

  /** The value an edit writes. */
  function Written(e: ProgramEdit): Value {
    match e
    case SetFlag(_, b) => Checked(b)
    case SetEligibility(_, c) => Text(c.Label())
    case SetOrganizationName(t) => Text(t)
    case SetOrganizationType(t) => Text(t)
    case SetOrganizationTypeOther(t) => Text(t)
    case SetWebsite(t) => Text(t)
    case SetContact(_, t) => Text(t)
    case SetDomicileRegion(t) => Text(t)
    case SetFlagOther(t) => Text(t)
  }

  function SetContactAt(c: Contact, f: ContactField, t: string): Contact {
    match f
    case Name => c.(name := t)
    case Title => c.(title := t)
    case Email => c.(email := t)
    case Phone => c.(phone := t)
  }

  function SetFlagAt(g: RegulatoryFlags, f: Flag, b: bool): RegulatoryFlags {
    match f
    case ERISA => g.(erisa := b)
    case AIFMD => g.(aifmd := b)
    case SFDR_Art_8_9 => g.(sfdrArt8or9 := b)
    case FOIA => g.(foia := b)
  }

  function SetEligibilityAt(e: Eligibility, r: Region, t: string): Eligibility {
    match r
    case NA => e.(na := t)
    case EU => e.(eu := t)
    case UK => e.(uk := t)
    case APAC => e.(apac := t)
  }

  /** The draft after one `onChange` handler: the edited key holds the new value and every other key, at every level, is as before. */
  function Apply(p: Program, e: ProgramEdit): (r: Program)
    ensures Get(r, Target(e)) == Written(e)
    ensures forall q :: q != Target(e) ==> Get(r, q) == Get(p, q)
  {
    match e
    case SetOrganizationName(t) => p.(organizationName := t)
    case SetOrganizationType(t) => p.(organizationType := t)
    case SetOrganizationTypeOther(t) => p.(organizationTypeOther := t)
    case SetWebsite(t) => p.(website := t)
    case SetContact(f, t) => p.(primaryContact := SetContactAt(p.primaryContact, f, t))
    case SetDomicileRegion(t) => p.(domicileRegion := t)
    case SetFlag(f, b) => p.(regulatoryFlags := SetFlagAt(p.regulatoryFlags, f, b))
    case SetFlagOther(t) => p.(regulatoryFlags := p.regulatoryFlags.(other := t))
    case SetEligibility(r, c) => p.(marketingEligibility := SetEligibilityAt(p.marketingEligibility, r, c.Label()))
  }

  /** Two drafts that agree on every key are the same draft: `Get` sees everything a Program holds. */
  lemma Extensionality(p: Program, p': Program)
    requires forall q :: Get(p, q) == Get(p', q)
    ensures p == p'
  {
    assert Get(p, OrganizationName) == Get(p', OrganizationName);
    assert Get(p, OrganizationType) == Get(p', OrganizationType);
    assert Get(p, OrganizationTypeOther) == Get(p', OrganizationTypeOther);
    assert Get(p, Website) == Get(p', Website);
    assert Get(p, DomicileRegion) == Get(p', DomicileRegion);
    assert Get(p, FlagOther) == Get(p', FlagOther);
    forall f: ContactField ensures ContactAt(p.primaryContact, f) == ContactAt(p'.primaryContact, f) {
      assert Get(p, ContactKey(f)) == Get(p', ContactKey(f));
    }
    assert ContactAt(p.primaryContact, Name) == ContactAt(p'.primaryContact, Name);
    assert ContactAt(p.primaryContact, Title) == ContactAt(p'.primaryContact, Title);
    assert ContactAt(p.primaryContact, Email) == ContactAt(p'.primaryContact, Email);
    assert ContactAt(p.primaryContact, Phone) == ContactAt(p'.primaryContact, Phone);
    forall f: Flag ensures FlagAt(p.regulatoryFlags, f) == FlagAt(p'.regulatoryFlags, f) {
      assert Get(p, FlagKey(f)) == Get(p', FlagKey(f));
    }
    assert FlagAt(p.regulatoryFlags, ERISA) == FlagAt(p'.regulatoryFlags, ERISA);
    assert FlagAt(p.regulatoryFlags, AIFMD) == FlagAt(p'.regulatoryFlags, AIFMD);
    assert FlagAt(p.regulatoryFlags, SFDR_Art_8_9) == FlagAt(p'.regulatoryFlags, SFDR_Art_8_9);
    assert FlagAt(p.regulatoryFlags, FOIA) == FlagAt(p'.regulatoryFlags, FOIA);
    forall r: Region ensures EligibilityAt(p.marketingEligibility, r) == EligibilityAt(p'.marketingEligibility, r) {
      assert Get(p, RegionKey(r)) == Get(p', RegionKey(r));
    }
    assert EligibilityAt(p.marketingEligibility, NA) == EligibilityAt(p'.marketingEligibility, NA);
    assert EligibilityAt(p.marketingEligibility, EU) == EligibilityAt(p'.marketingEligibility, EU);
    assert EligibilityAt(p.marketingEligibility, UK) == EligibilityAt(p'.marketingEligibility, UK);
    assert EligibilityAt(p.marketingEligibility, APAC) == EligibilityAt(p'.marketingEligibility, APAC);
  }

  /** `Apply` is the only draft that writes the edited key and keeps all others. */
  lemma ApplyIsTheOnlySingleKeyUpdate(p: Program, e: ProgramEdit, r: Program)
    requires Get(r, Target(e)) == Written(e)
    requires forall q :: q != Target(e) ==> Get(r, q) == Get(p, q)
    ensures r == Apply(p, e)
  {
    var a := Apply(p, e);
    forall q ensures Get(r, q) == Get(a, q) {
    }
    Extensionality(r, a);
  }

  /** Changing the organization type leaves the free-text "other" type in place. */
  lemma TypeChangeKeepsOtherText(p: Program, t: string)
    ensures Apply(p, SetOrganizationType(t)).organizationType == t
    ensures Apply(p, SetOrganizationType(t)).organizationTypeOther == p.organizationTypeOther
  {
    assert Get(Apply(p, SetOrganizationType(t)), OrganizationTypeOther) == Get(p, OrganizationTypeOther);
  }

  /** Every region holds one of the two button labels. */
  predicate EligibilityValid(p: Program) {
    forall r: Region :: EligibilityAt(p.marketingEligibility, r) in EligibilityLabels
  }

  /** The initial draft marks every region eligible. */
  lemma InitialAllEligible()
    ensures forall r: Region :: EligibilityAt(Initial.marketingEligibility, r) == "Eligible"
    ensures EligibilityValid(Initial)
  {
    forall r: Region ensures EligibilityAt(Initial.marketingEligibility, r) == "Eligible" {
      match r
      case NA =>
      case EU =>
      case UK =>
      case APAC =>
    }
  }

  /** No edit can put a value other than the two labels into a region. */
  lemma ApplyKeepsEligibilityValid(p: Program, e: ProgramEdit)
    requires EligibilityValid(p)
    ensures EligibilityValid(Apply(p, e))
  {
    var r := Apply(p, e);
    forall g: Region ensures EligibilityAt(r.marketingEligibility, g) in EligibilityLabels {
      assert Get(r, RegionKey(g)) == Text(EligibilityAt(r.marketingEligibility, g));
      if RegionKey(g) == Target(e) {
        assert e.SetEligibility?;
        assert e.choice.Label() in EligibilityLabels;
      } else {
        assert Get(r, RegionKey(g)) == Get(p, RegionKey(g));
      }
    }
  }

  /** Setting one region's eligibility leaves the other three regions as they were. */
  lemma SetRegionKeepsOtherRegions(p: Program, g: Region, c: EligibilityChoice, other: Region)
    requires other != g
    ensures EligibilityAt(Apply(p, SetEligibility(g, c)).marketingEligibility, g) == c.Label()
    ensures EligibilityAt(Apply(p, SetEligibility(g, c)).marketingEligibility, other)
         == EligibilityAt(p.marketingEligibility, other)
  {
    assert Get(Apply(p, SetEligibility(g, c)), RegionKey(g)) == Text(c.Label());
    assert Get(Apply(p, SetEligibility(g, c)), RegionKey(other)) == Get(p, RegionKey(other));
  }
}
