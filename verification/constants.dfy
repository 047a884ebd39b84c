/** The mock mission catalogue: `createMission` and the generator that
    builds the library of 110 missions in nine groups. */
module Constants {
  import opened Types
  import opened Seqs
  import opened Text

  /** A step as the generator writes it, before it gets its id. */
  datatype StepSpec = StepSpec(
    title: string,
    description: string,
    requiredInputType: Option<InputType>,
    options: seq<string>)

  function Ask(title: string, description: string, input: InputType): StepSpec {
    StepSpec(title, description, Some(input), [])
  }

  /** Step `i` (0-based) of mission `missionId` is `${id}_s${i+1}`. */
  function StepId(missionId: string, i: nat): string {
    missionId + "_s" + NatToString(i + 1)
  }

  /** The step ids of one mission are pairwise distinct. */
  lemma StepIdsDistinct(missionId: string, i: nat, j: nat)
    requires i != j
    ensures StepId(missionId, i) != StepId(missionId, j)
  {
    if StepId(missionId, i) == StepId(missionId, j) {
      PrefixedNumberInjective(missionId + "_s", i + 1, j + 1);
    }
  }

  /** The steps of mission `id` from position `start` on: `specs` in order,
      each with its derived id and not completed. */
  function BuildSteps(id: string, specs: seq<StepSpec>, start: nat): (r: seq<MissionStep>)
    ensures |r| == |specs|
    ensures forall i :: 0 <= i < |specs| ==>
      r[i] == MissionStep(StepId(id, start + i), specs[i].title, specs[i].description,
                          specs[i].requiredInputType, specs[i].options, false)
    decreases |specs|
  {
    if specs == [] then []
    else
      [MissionStep(StepId(id, start), specs[0].title, specs[0].description,
                   specs[0].requiredInputType, specs[0].options, false)]
      + BuildSteps(id, specs[1..], start + 1)
  }

  /** `createMission`: +1 XP, the given status, prio flag and level
      requirement, and the steps built from the specs. */
  function CreateMission(
    id: string, title: string, category: string, description: string, steps: seq<StepSpec>,
    status: MissionStatus := Locked, isPrio: bool := false, minLevel: int := 0): (m: Mission)
    ensures m.id == id && m.title == title && m.category == category && m.description == description
    ensures m.xpReward == 1
    ensures m.status == status && m.isPrio == isPrio && m.minLevel == Some(minLevel)
    ensures m.steps == BuildSteps(id, steps, 0)
  {
    Mission(id, title, category, description, 1, status, isPrio, Some(minLevel), BuildSteps(id, steps, 0))
  }

  /** The steps of a created mission: one per spec, in order, with ids
      `${id}_s1`, `${id}_s2`, ... that are pairwise distinct and start
      with the mission's id, none completed. */
  lemma CreatedSteps(id: string, specs: seq<StepSpec>)
    ensures var steps := BuildSteps(id, specs, 0);
      && |steps| == |specs|
      && (forall i :: 0 <= i < |specs| ==>
            steps[i].id == StepId(id, i) && !steps[i].completed
            && steps[i].title == specs[i].title && steps[i].description == specs[i].description
            && steps[i].requiredInputType == specs[i].requiredInputType && steps[i].options == specs[i].options)
      && NoDuplicates(StepIds(steps))
      && (forall i :: 0 <= i < |specs| ==> id <= steps[i].id)
  {
    var steps := BuildSteps(id, specs, 0);
    forall i, j | 0 <= i < j < |steps| ensures StepIds(steps)[i] != StepIds(steps)[j] {
      StepIdsDistinct(id, i, j);
    }
  }

  /** Omitted arguments default to a locked, non-prio, level-0 mission. */
  lemma CreateMissionDefaults(id: string, title: string, category: string, description: string, steps: seq<StepSpec>)
    ensures CreateMission(id, title, category, description, steps).status == Locked
    ensures !CreateMission(id, title, category, description, steps).isPrio
    ensures CreateMission(id, title, category, description, steps).minLevel == Some(0)
  {
  }

  // ---------------------------------------------------------------------
  // The nine groups of the library
  // ---------------------------------------------------------------------

  /** 1. Onboarding and identity: five fixed missions. */
  function OnboardingMission(k: nat): Mission
    requires k < 5
  {
    if k == 0 then
      CreateMission("m_onb_001", "Profiel & Identiteit verificatie", "ONBOARDING", IdentityDescription, IdentitySteps, Available, true)
    else if k == 1 then
      CreateMission("m_onb_002", "Non-Disclosure Agreement (NDA)", "ONBOARDING", NdaDescription, NdaSteps, Available, true)
    else if k == 2 then
      CreateMission("m_onb_003", "IT Security Compliance", "ONBOARDING", SecurityDescription, SecuritySteps, Available, false)
    else if k == 3 then
      CreateMission("m_onb_004", "Competentie Profiel", "ONBOARDING", CompetenceDescription, CompetenceSteps, Available, false)
    else
      CreateMission("m_onb_005", "Community Richtlijnen", "GOVERNANCE", GuidelinesDescription, GuidelinesSteps, Locked, false, 1)
  }

  const IdentityDescription := "Voltooi je basisregistratie om toegang te krijgen tot het platform."
  const IdentitySteps := [
    Ask("Persoonsgegevens", "Controleer en bevestig je volledige officiële naam.", TextInput),
    Ask("Contactgegevens", "Bevestig je zakelijke e-mailadres en telefoonnummer.", EmailInput),
    Ask("Identiteitsbewijs", "Upload een veilige kopie van je ID (AVG proof).", FileInput),
    Ask("Adresverificatie", "Upload een bewijs van woonadres (< 3 maanden oud).", FileInput),
    Ask("IBAN registratie", "Voer je bankrekening in voor vergoedingen.", IbanInput) ]

  const NdaDescription := "Lees en onderteken de geheimhoudingsverklaring voor toegang tot klantdata."
  const NdaSteps := [
    Ask("NDA Document", "Download en lees de VVC NDA v2.4.", BooleanInput),
    Ask("Ondertekening", "Upload het ondertekende document.", FileInput),
    Ask("Juridische bevestiging", "Ik verklaar bevoegd te zijn om te tekenen.", BooleanInput) ]

  const SecurityDescription := "Verifieer dat je werkplek voldoet aan de veiligheidseisen."
  const SecuritySteps := [
    Ask("Virusscanner", "Welke virusscanner gebruik je?", TextInput),
    Ask("Laatste scan", "Datum van laatste volledige systeemscan.", DateInput),
    Ask("Wachtwoord manager", "Bevestig gebruik van een password manager.", BooleanInput) ]

  const CompetenceDescription := "Breng je vaardigheden in kaart voor team-matching."
  const CompetenceSteps := [
    Ask("Primaire skill", "Wat is je hoofdexpertise?", TextInput),
    Ask("Ervaringsniveau", "Aantal jaren relevante werkervaring.", NumberInput),
    Ask("CV Upload", "Upload je meest recente CV (PDF).", FileInput) ]

  const GuidelinesDescription := "Bevestig dat je de gedragsregels hebt begrepen."
  const GuidelinesSteps := [
    Ask("Gedragscode", "Ik heb de Code of Conduct gelezen.", BooleanInput),
    Ask("Communicatie", "Ik begrijp de regels omtrent zakelijke communicatie.", BooleanInput) ]

  function DailyId(i: nat): string { "m_prio_daily_" + NatToString(i) }

  /** 2. Daily check-in `i`: prio, only day 1 available. */
  function DailyCheckIn(i: nat): Mission {
    CreateMission(DailyId(i), "Check-in Dag " + NatToString(i), "PRIO_CHECKIN", CheckInDescription, CheckInSteps,
      if i == 1 then Available else Locked, true, 0)
  }

  const CheckInDescription := "Dagelijkse update van beschikbaarheid en status. Maximaal 15 minuten."
  const CheckInSteps := [
    Ask("Beschikbaarheid", "Ben je vandaag beschikbaar voor missies?", BooleanInput),
    Ask("Uren", "Hoeveel uur kun je vandaag inzetten?", NumberInput),
    Ask("Blokkades", "Zijn er belemmeringen voor je werkzaamheden?", TextInput) ]

  datatype MonthlyTaskSpec = MonthlyTaskSpec(category: string, title: string, desc: string)

  const MonthlyTasks: seq<MonthlyTaskSpec> := [
    MonthlyTaskSpec("PRIO_REFERRAL", "Referral Lead", "Draag een potentiële nieuwe professional aan."),
    MonthlyTaskSpec("PRIO_CONTENT", "Content Bijdrage", "Deel één relevant artikel of inzicht met het team."),
    MonthlyTaskSpec("PRIO_NETWORK", "Netwerk Verificatie", "Valideer 5 contacten in je CRM netwerk."),
    MonthlyTaskSpec("PRIO_METADATA", "Data Opschoning", "Controleer en corrigeer tags op 10 dossiers.")
  ]

  function MonthlyId(idx: nat, month: nat): string {
    "m_prio_m_" + NatToString(idx) + "_" + NatToString(month)
  }

  /** 3. Monthly task `idx` for `month`: prio, locked, level `month` required. */
  function MonthlyTask(idx: nat, month: nat): Mission
    requires idx < |MonthlyTasks|
  {
    var task := MonthlyTasks[idx];
    CreateMission(MonthlyId(idx, month), task.title + " - Maand " + NatToString(month), task.category, task.desc,
      MonthlySteps, Locked, true, month)
  }

  const MonthlySteps := [
    Ask("Input", "Voer de gevraagde gegevens in.", LongTextInput),
    Ask("Bewijslast", "Upload screenshot of document.", FileInput) ]

  const QaTasks: seq<string> := [
    "Validatie Login Flow", "Check Responsive Design Mobile", "Audit Tekstuele Fouten Homepage",
    "Test Betalingsgateway Sandbox", "Controleer Broken Links Footer", "Validatie Afbeeldingen Compressie",
    "Test Wachtwoord Reset Flow", "Audit Toegankelijkheid (WCAG)", "Performance Test Dashboard",
    "Cross-browser Test (Safari)", "Cross-browser Test (Firefox)", "Validatie API Error Handling",
    "Check GDPR Cookie Banner", "Test Bestandsgrootte Uploads", "Validatie Email Templates"
  ]

  function QualityId(i: nat): string { "m_qc_" + NatToString(i) }

  /** 4. Quality check `i`: level `floor(i/3) + 2` required. */
  function QualityCheck(i: nat): Mission
    requires i < |QaTasks|
  {
    CreateMission(QualityId(i), QaTasks[i], "QUALITY", QualityDescription, QualitySteps, Locked, false, QualityLevel(i))
  }

  /** The level a quality check asks for: `Math.floor(i / 3) + 2`. */
  function QualityLevel(i: nat): int { i / 3 + 2 }

  const QualityDescription := "Voer een gestructureerde kwaliteitscontrole uit op het aangewezen onderdeel."
  const QualitySteps := [
    Ask("Testplan", "Lees het testprotocol.", BooleanInput),
    Ask("Bevindingen", "Beschrijf eventuele bugs of fouten gedetailleerd.", LongTextInput),
    StepSpec("Status", "Geef het onderdeel een pass/fail status.", Some(SelectInput), ["Pass", "Fail", "Needs Info"]),
    Ask("Bewijs", "Upload screenshots van de test.", FileInput) ]

  function ReviewId(i: nat): string { "m_rev_" + NatToString(i) }

  /** 5. Peer review `i` of dossier 1000 + i. */
  function PeerReview(i: nat): Mission {
    CreateMission(ReviewId(i), "Peer Review: Dossier #" + NatToString(1000 + i), "REVIEW", ReviewDescription, ReviewSteps,
      Locked, false, 5)
  }

  const ReviewDescription := "Beoordeel het werk van een collega op volledigheid en juistheid."
  const ReviewSteps := [
    Ask("Dossier Check", "Zijn alle documenten aanwezig?", BooleanInput),
    Ask("Kwaliteitsoordeel", "Geef inhoudelijke feedback.", LongTextInput),
    Ask("Score", "Beoordeling 1-10.", NumberInput) ]

  const ContentTasks: seq<string> := [
    "Schrijf Blog Concept: Remote Work", "Redigeer Nieuwsbrief Oktober", "Vertaal Landingspagina (NL-EN)",
    "Analyseer Competitor Content", "Maak Social Media Kalender Concept", "Schrijf User Story: Dashboard",
    "Update FAQ Sectie", "Schrijf Case Study: Project Alpha", "Maak Persbericht Concept", "Herschrijf \"Over Ons\" Pagina"
  ]

  function ContentId(i: nat): string { "m_cont_" + NatToString(i) }

  /** 6. Content task `i`: CONTENT for the first five, MARKETING after. */
  function ContentTask(i: nat): Mission
    requires i < |ContentTasks|
  {
    CreateMission(ContentId(i), ContentTasks[i], if i < 5 then "CONTENT" else "MARKETING", ContentDescription, ContentSteps,
      Locked, false, 3)
  }

  const ContentDescription := "Creëer of optimaliseer professionele content voor externe communicatie."
  const ContentSteps := [
    Ask("Briefing", "Ik heb de tone-of-voice richtlijnen gelezen.", BooleanInput),
    Ask("Concept Tekst", "Plak hier de concepttekst of link.", LongTextInput),
    Ask("SEO Check", "Zijn de keywords verwerkt?", BooleanInput) ]

  function SalesId(i: nat): string { "m_sales_" + NatToString(i) }

  /** 7a. Lead qualification batch `i`. */
  function SalesLead(i: nat): Mission {
    CreateMission(SalesId(i), "Lead Kwalificatie Batch " + NatToString(i), "SALES", SalesDescription, SalesSteps,
      Locked, false, 4)
  }

  const SalesDescription := "Verrijk data van 5 potentiële prospects."
  const SalesSteps := [
    Ask("LinkedIn Check", "Verifieer huidige functies.", BooleanInput),
    Ask("Contactdata", "Voeg ontbrekende emails toe.", LongTextInput),
    Ask("Validatie", "Is dit een relevante lead?", BooleanInput) ]

  function NetworkId(i: nat): string { "m_net_" + NatToString(i) }

  /** 7b. Partner outreach `i`. */
  function PartnerOutreach(i: nat): Mission {
    CreateMission(NetworkId(i), "Partner Outreach " + NatToString(i), "NETWORK", NetworkDescription, NetworkSteps,
      Locked, false, 6)
  }

  const NetworkDescription := "Identificeer strategische partners in sector X."
  const NetworkSteps := [
    Ask("Bedrijfsnaam", "Naam van potentiële partner.", TextInput),
    Ask("Website", "URL van de partner.", UrlInput),
    Ask("Motivatie", "Waarom past dit bij VVC?", LongTextInput) ]

  function DataId(i: nat): string { "m_data_" + NatToString(i) }

  /** 8. Dataset categorisation `i`: METADATA for 1..4, GOVERNANCE after. */
  function DataTask(i: nat): Mission {
    CreateMission(DataId(i), "Dataset Categorisatie " + NatToString(i), if i < 5 then "METADATA" else "GOVERNANCE",
      DataDescription, DataSteps, Locked, false, 2)
  }

  const DataDescription := "Structureer ongesorteerde data voor betere doorzoekbaarheid."
  const DataSteps := [
    Ask("Tagging", "Ken relevante tags toe.", TextInput),
    Ask("Duplicaten", "Markeer dubbele entries.", BooleanInput) ]

  /** `String.fromCharCode(65 + i)` for the sectors used: 'A' + i. */
  function SectorLetter(i: nat): (c: char)
    requires i < 26
    ensures 'A' <= c <= 'Z'
    ensures c as int == 'A' as int + i
  {
    (65 + i) as char
  }

  function InvestmentId(i: nat): string { "m_inv_" + NatToString(i) }

  /** 9. Market analysis of sector `String.fromCharCode(65 + i)`. */
  function InvestmentAnalysis(i: nat): Mission
    requires i < 26
  {
    CreateMission(InvestmentId(i), "Markt Analyse: Sector " + [SectorLetter(i)], "INVESTMENT", InvestmentDescription,
      InvestmentSteps, Locked, false, 8)
  }

  const InvestmentDescription := "Analyseer markttrends en groeipotentieel."
  const InvestmentSteps := [
    Ask("Marktgrootte", "Schatting in Euro.", NumberInput),
    Ask("Groei %", "Verwachte jaarlijkse groei.", NumberInput),
    Ask("Rapport", "Upload korte analyse PDF.", FileInput) ]

  // ---------------------------------------------------------------------
  // The blocks of the library. Each block predicate pins down every
  // mission of a block; its quantifier fires only on the mission builder
  // itself, so that a proof about the whole library never unfolds the
  // catalogue's texts.
  // ---------------------------------------------------------------------

  /** `s` holds the five onboarding missions in order. */
  ghost predicate HoldsOnboarding(s: seq<Mission>) {
    |s| == 5 && forall k: nat {:trigger OnboardingMission(k)} :: k < 5 ==> s[k] == OnboardingMission(k)
  }

  /** `s` holds the check-ins of days 1 to `n`. */
  ghost predicate HoldsCheckIns(s: seq<Mission>, n: nat) {
    |s| == n && forall i {:trigger DailyCheckIn(i)} :: 1 <= i <= n ==> s[i - 1] == DailyCheckIn(i)
  }

  /** `s` holds the first `n` monthly missions: task by task, months 1 to 3. */
  ghost predicate HoldsMonthly(s: seq<Mission>, n: nat) {
    |s| == n
    && forall idx: nat, month: nat {:trigger MonthlyTask(idx, month)} ::
         idx < |MonthlyTasks| && 1 <= month <= 3 && 3 * idx + month <= n ==> s[3 * idx + month - 1] == MonthlyTask(idx, month)
  }

  /** `s` holds the quality checks of the first `n` QA tasks. */
  ghost predicate HoldsQualityChecks(s: seq<Mission>, n: nat) {
    |s| == n && forall i {:trigger QualityCheck(i)} :: 0 <= i < n && i < |QaTasks| ==> s[i] == QualityCheck(i)
  }

  /** `s` holds peer reviews 1 to `n`. */
  ghost predicate HoldsReviews(s: seq<Mission>, n: nat) {
    |s| == n && forall i {:trigger PeerReview(i)} :: 1 <= i <= n ==> s[i - 1] == PeerReview(i)
  }

  /** `s` holds the content missions of the first `n` content tasks. */
  ghost predicate HoldsContent(s: seq<Mission>, n: nat) {
    |s| == n && forall i {:trigger ContentTask(i)} :: 0 <= i < n && i < |ContentTasks| ==> s[i] == ContentTask(i)
  }

  /** `s` holds `rounds` rounds of a sales mission followed by a network mission. */
  ghost predicate HoldsSalesNetwork(s: seq<Mission>, rounds: nat) {
    |s| == 2 * rounds && SalesAtEven(s, rounds) && NetworkAtOdd(s, rounds)
  }

  ghost predicate SalesAtEven(s: seq<Mission>, rounds: nat)
    requires |s| == 2 * rounds
  {
    forall i {:trigger SalesLead(i)} :: 1 <= i <= rounds ==> s[2 * i - 2] == SalesLead(i)
  }

  ghost predicate NetworkAtOdd(s: seq<Mission>, rounds: nat)
    requires |s| == 2 * rounds
  {
    forall i {:trigger PartnerOutreach(i)} :: 1 <= i <= rounds ==> s[2 * i - 1] == PartnerOutreach(i)
  }

  /** `s` holds dataset missions 1 to `n`. */
  ghost predicate HoldsDataTasks(s: seq<Mission>, n: nat) {
    |s| == n && forall i {:trigger DataTask(i)} :: 1 <= i <= n ==> s[i - 1] == DataTask(i)
  }

  /** `s` holds the market analyses of sectors 1 to `n`. */
  ghost predicate HoldsInvestments(s: seq<Mission>, n: nat) {
    |s| == n && forall i {:trigger InvestmentAnalysis(i)} :: 1 <= i <= n && i < 26 ==> s[i - 1] == InvestmentAnalysis(i)
  }

  /** `MOCK_MISSIONS`: the nine blocks in the order they are pushed. */
  ghost predicate IsLibrary(s: seq<Mission>) {
    |s| == 110
    && HoldsOnboarding(s[..5])
    && HoldsCheckIns(s[5..35], 30)
    && HoldsMonthly(s[35..47], 12)
    && HoldsQualityChecks(s[47..62], 15)
    && HoldsReviews(s[62..72], 10)
    && HoldsContent(s[72..82], 10)
    && HoldsSalesNetwork(s[82..92], 5)
    && HoldsDataTasks(s[92..100], 8)
    && HoldsInvestments(s[100..], 10)
  }

  // One loop iteration of each section, as a lemma about the block pushed so far.

  lemma ExtendCheckIns(block: seq<Mission>, n: nat)
    requires HoldsCheckIns(block, n)
    ensures HoldsCheckIns(block + [DailyCheckIn(n + 1)], n + 1)
  {
    var s := block + [DailyCheckIn(n + 1)];
    forall i | 1 <= i <= n ensures s[i - 1] == DailyCheckIn(i) {
      assert s[i - 1] == block[i - 1];
    }
  }

  lemma ExtendMonthly(block: seq<Mission>, idx: nat, month: nat)
    requires idx < |MonthlyTasks| && 1 <= month <= 3 && HoldsMonthly(block, 3 * idx + month - 1)
    ensures HoldsMonthly(block + [MonthlyTask(idx, month)], 3 * idx + month)
  {
    var s := block + [MonthlyTask(idx, month)];
    forall i: nat, m: nat | i < |MonthlyTasks| && 1 <= m <= 3 && 3 * i + m <= 3 * idx + month
      ensures s[3 * i + m - 1] == MonthlyTask(i, m)
    {
      if 3 * i + m == 3 * idx + month {
        assert i == idx && m == month;
      } else {
        assert s[3 * i + m - 1] == block[3 * i + m - 1];
      }
    }
  }

  lemma ExtendQualityChecks(block: seq<Mission>, n: nat)
    requires n < |QaTasks| && HoldsQualityChecks(block, n)
    ensures HoldsQualityChecks(block + [QualityCheck(n)], n + 1)
  {
    var s := block + [QualityCheck(n)];
    forall i | 0 <= i < n ensures s[i] == QualityCheck(i) {
      assert s[i] == block[i];
    }
  }

  lemma ExtendReviews(block: seq<Mission>, n: nat)
    requires HoldsReviews(block, n)
    ensures HoldsReviews(block + [PeerReview(n + 1)], n + 1)
  {
    var s := block + [PeerReview(n + 1)];
    forall i | 1 <= i <= n ensures s[i - 1] == PeerReview(i) {
      assert s[i - 1] == block[i - 1];
    }
  }

  lemma ExtendContent(block: seq<Mission>, n: nat)
    requires n < |ContentTasks| && HoldsContent(block, n)
    ensures HoldsContent(block + [ContentTask(n)], n + 1)
  {
    var s := block + [ContentTask(n)];
    forall i | 0 <= i < n ensures s[i] == ContentTask(i) {
      assert s[i] == block[i];
    }
  }

  lemma ExtendSalesNetwork(block: seq<Mission>, rounds: nat)
    requires HoldsSalesNetwork(block, rounds)
    ensures HoldsSalesNetwork(block + [SalesLead(rounds + 1), PartnerOutreach(rounds + 1)], rounds + 1)
  {
    ExtendSales(block, rounds, PartnerOutreach(rounds + 1));
    ExtendNetwork(block, rounds, SalesLead(rounds + 1));
  }

  lemma ExtendSales(block: seq<Mission>, rounds: nat, next: Mission)
    requires |block| == 2 * rounds && SalesAtEven(block, rounds)
    ensures SalesAtEven(block + [SalesLead(rounds + 1), next], rounds + 1)
  {
    var s := block + [SalesLead(rounds + 1), next];
    forall i | 1 <= i <= rounds + 1 ensures s[2 * i - 2] == SalesLead(i) {
      AppendPairKeeps(block, SalesLead(rounds + 1), next, 2 * i - 2);
    }
  }

  lemma ExtendNetwork(block: seq<Mission>, rounds: nat, before: Mission)
    requires |block| == 2 * rounds && NetworkAtOdd(block, rounds)
    ensures NetworkAtOdd(block + [before, PartnerOutreach(rounds + 1)], rounds + 1)
  {
    var s := block + [before, PartnerOutreach(rounds + 1)];
    forall i | 1 <= i <= rounds + 1 ensures s[2 * i - 1] == PartnerOutreach(i) {
      AppendPairKeeps(block, before, PartnerOutreach(rounds + 1), 2 * i - 1);
    }
  }

  /** Appending a pair keeps the earlier elements and puts the pair last. */
  lemma AppendPairKeeps<T>(block: seq<T>, x: T, y: T, j: int)
    requires 0 <= j
    ensures j < |block| ==> (block + [x, y])[j] == block[j]
    ensures (block + [x, y])[|block|] == x && (block + [x, y])[|block| + 1] == y
  {
  }

  lemma ExtendDataTasks(block: seq<Mission>, n: nat)
    requires HoldsDataTasks(block, n)
    ensures HoldsDataTasks(block + [DataTask(n + 1)], n + 1)
  {
    var s := block + [DataTask(n + 1)];
    forall i | 1 <= i <= n ensures s[i - 1] == DataTask(i) {
      assert s[i - 1] == block[i - 1];
    }
  }

  lemma ExtendInvestments(block: seq<Mission>, n: nat)
    requires n < 25 && HoldsInvestments(block, n)
    ensures HoldsInvestments(block + [InvestmentAnalysis(n + 1)], n + 1)
  {
    var s := block + [InvestmentAnalysis(n + 1)];
    forall i | 1 <= i <= n ensures s[i - 1] == InvestmentAnalysis(i) {
      assert s[i - 1] == block[i - 1];
    }
  }

  /** Section 1: one `push` of the five onboarding missions. */
  method PushOnboarding(missions: seq<Mission>) returns (r: seq<Mission>)
    ensures |r| == |missions| + 5 && r[..|missions|] == missions && HoldsOnboarding(r[|missions|..])
  {
    r := missions + [OnboardingMission(0), OnboardingMission(1), OnboardingMission(2), OnboardingMission(3), OnboardingMission(4)];
  }

  /** Section 2: `for (let i = 1; i <= 30; i++)`. */
  method PushCheckIns(missions: seq<Mission>) returns (r: seq<Mission>)
    ensures |r| == |missions| + 30 && r[..|missions|] == missions && HoldsCheckIns(r[|missions|..], 30)
  {
    r := missions;
    for i := 1 to 31
      invariant |r| == |missions| + i - 1 && r[..|missions|] == missions
      invariant HoldsCheckIns(r[|missions|..], i - 1)
    {
      ghost var block := r[|missions|..];
      ExtendCheckIns(block, i - 1);
      r := r + [DailyCheckIn(i)];
      assert r[|missions|..] == block + [DailyCheckIn(i)];
    }
  }

  /** Section 3: `monthlyTasks.forEach((task, idx) => [1, 2, 3].forEach(month => ...))`. */
  method PushMonthlyTasks(missions: seq<Mission>) returns (r: seq<Mission>)
    ensures |r| == |missions| + 3 * |MonthlyTasks| && r[..|missions|] == missions
    ensures HoldsMonthly(r[|missions|..], 3 * |MonthlyTasks|)
  {
    r := missions;
    for idx := 0 to |MonthlyTasks|
      invariant |r| == |missions| + 3 * idx && r[..|missions|] == missions
      invariant HoldsMonthly(r[|missions|..], 3 * idx)
    {
      for month := 1 to 4
        invariant |r| == |missions| + 3 * idx + month - 1 && r[..|missions|] == missions
        invariant HoldsMonthly(r[|missions|..], 3 * idx + month - 1)
      {
        ghost var block := r[|missions|..];
        ExtendMonthly(block, idx, month);
        r := r + [MonthlyTask(idx, month)];
        assert r[|missions|..] == block + [MonthlyTask(idx, month)];
      }
    }
  }

  /** Section 4: `qaTasks.forEach((task, i) => ...)`. */
  method PushQualityChecks(missions: seq<Mission>) returns (r: seq<Mission>)
    ensures |r| == |missions| + |QaTasks| && r[..|missions|] == missions
    ensures HoldsQualityChecks(r[|missions|..], |QaTasks|)
  {
    r := missions;
    for i := 0 to |QaTasks|
      invariant |r| == |missions| + i && r[..|missions|] == missions
      invariant HoldsQualityChecks(r[|missions|..], i)
    {
      ghost var block := r[|missions|..];
      ExtendQualityChecks(block, i);
      r := r + [QualityCheck(i)];
      assert r[|missions|..] == block + [QualityCheck(i)];
    }
  }

  /** Section 5: `for (let i = 1; i <= 10; i++)`. */
  method PushPeerReviews(missions: seq<Mission>) returns (r: seq<Mission>)
    ensures |r| == |missions| + 10 && r[..|missions|] == missions && HoldsReviews(r[|missions|..], 10)
  {
    r := missions;
    for i := 1 to 11
      invariant |r| == |missions| + i - 1 && r[..|missions|] == missions
      invariant HoldsReviews(r[|missions|..], i - 1)
    {
      ghost var block := r[|missions|..];
      ExtendReviews(block, i - 1);
      r := r + [PeerReview(i)];
      assert r[|missions|..] == block + [PeerReview(i)];
    }
  }

  /** Section 6: `contentTasks.forEach((task, i) => ...)`. */
  method PushContentTasks(missions: seq<Mission>) returns (r: seq<Mission>)
    ensures |r| == |missions| + |ContentTasks| && r[..|missions|] == missions
    ensures HoldsContent(r[|missions|..], |ContentTasks|)
  {
    r := missions;
    for i := 0 to |ContentTasks|
      invariant |r| == |missions| + i && r[..|missions|] == missions
      invariant HoldsContent(r[|missions|..], i)
    {
      ghost var block := r[|missions|..];
      ExtendContent(block, i);
      r := r + [ContentTask(i)];
      assert r[|missions|..] == block + [ContentTask(i)];
    }
  }

  /** Section 7: `for (let i = 1; i <= 5; i++)`, a sales then a network mission. */
  method PushSalesAndNetwork(missions: seq<Mission>) returns (r: seq<Mission>)
    ensures |r| == |missions| + 10 && r[..|missions|] == missions && HoldsSalesNetwork(r[|missions|..], 5)
  {
    r := missions;
    for i := 1 to 6
      invariant |r| == |missions| + 2 * (i - 1) && r[..|missions|] == missions
      invariant HoldsSalesNetwork(r[|missions|..], i - 1)
    {
      ghost var block := r[|missions|..];
      ExtendSalesNetwork(block, i - 1);
      r := r + [SalesLead(i)];
      r := r + [PartnerOutreach(i)];
      assert r[|missions|..] == block + [SalesLead(i), PartnerOutreach(i)];
    }
  }

  /** Section 8: `for (let i = 1; i <= 8; i++)`. */
  method PushDataTasks(missions: seq<Mission>) returns (r: seq<Mission>)
    ensures |r| == |missions| + 8 && r[..|missions|] == missions && HoldsDataTasks(r[|missions|..], 8)
  {
    r := missions;
    for i := 1 to 9
      invariant |r| == |missions| + i - 1 && r[..|missions|] == missions
      invariant HoldsDataTasks(r[|missions|..], i - 1)
    {
      ghost var block := r[|missions|..];
      ExtendDataTasks(block, i - 1);
      r := r + [DataTask(i)];
      assert r[|missions|..] == block + [DataTask(i)];
    }
  }

  /** Section 9: `for (let i = 1; i <= 10; i++)`. */
  method PushInvestmentAnalyses(missions: seq<Mission>) returns (r: seq<Mission>)
    ensures |r| == |missions| + 10 && r[..|missions|] == missions && HoldsInvestments(r[|missions|..], 10)
  {
    r := missions;
    for i := 1 to 11
      invariant |r| == |missions| + i - 1 && r[..|missions|] == missions
      invariant HoldsInvestments(r[|missions|..], i - 1)
    {
      ghost var block := r[|missions|..];
      ExtendInvestments(block, i - 1);
      r := r + [InvestmentAnalysis(i)];
      assert r[|missions|..] == block + [InvestmentAnalysis(i)];
    }
  }

  /** A later push keeps an earlier prefix, and so every slice of it. */
  lemma KeepPrefix<T>(a: seq<T>, b: seq<T>, c: seq<T>)
    requires |a| <= |b| <= |c| && b[..|a|] == a && c[..|b|] == b
    ensures c[..|a|] == a
  {
    assert c[..|a|] == c[..|b|][..|a|];
  }

  lemma KeepSlice<T>(a: seq<T>, b: seq<T>, lo: nat, hi: nat)
    requires lo <= hi <= |a| <= |b| && b[..|a|] == a
    ensures b[lo..hi] == a[lo..hi]
  {
    forall k | 0 <= k < hi - lo ensures b[lo..hi][k] == a[lo..hi][k] {
      assert b[lo + k] == b[..|a|][lo + k];
    }
  }

  /** `generateMissionLibrary`: 5 + 30 + 12 + 15 + 10 + 10 + 10 + 8 + 10 = 110
      missions, section by section. */
  method GenerateMissionLibrary() returns (missions: seq<Mission>)
    ensures IsLibrary(missions)
  {
    missions := [];
    missions := PushOnboarding(missions);
    ghost var m1 := missions;
    missions := PushCheckIns(missions);
    ghost var m2 := missions;
    missions := PushMonthlyTasks(missions);
    ghost var m3 := missions;
    missions := PushQualityChecks(missions);
    ghost var m4 := missions;
    missions := PushPeerReviews(missions);
    ghost var m5 := missions;
    missions := PushContentTasks(missions);
    ghost var m6 := missions;
    missions := PushSalesAndNetwork(missions);
    ghost var m7 := missions;
    missions := PushDataTasks(missions);
    ghost var m8 := missions;
    missions := PushInvestmentAnalyses(missions);
    assert |MonthlyTasks| == 4 && |QaTasks| == 15 && |ContentTasks| == 10;
    KeepPrefix(m7, m8, missions);
    KeepPrefix(m6, m7, missions);
    KeepPrefix(m5, m6, missions);
    KeepPrefix(m4, m5, missions);
    KeepPrefix(m3, m4, missions);
    KeepPrefix(m2, m3, missions);
    KeepPrefix(m1, m2, missions);
    KeepSlice(m1, missions, 0, 5);
    KeepSlice(m2, missions, 5, 35);
    KeepSlice(m3, missions, 35, 47);
    KeepSlice(m4, missions, 47, 62);
    KeepSlice(m5, missions, 62, 72);
    KeepSlice(m6, missions, 72, 82);
    KeepSlice(m7, missions, 82, 92);
    KeepSlice(m8, missions, 92, 100);
  }

  // ---------------------------------------------------------------------
  // Facts about every mission of the library
  // ---------------------------------------------------------------------

  /** The position an id of the library encodes: its group from the
      letters after `m_`, its place in the group from the number. */
  function Position(id: string): int {
    if |id| < 3 then -1
    else if id[2] == 'o' then (if |id| == 9 then DigitValue(id[8]) - 1 else -1)
    else if id[2] == 'p' then
      if |id| >= 13 && id[7] == 'd' then 4 + ParseDigits(id[13..])
      else if |id| == 12 then 35 + 3 * DigitValue(id[9]) + DigitValue(id[11]) - 1
      else -1
    else if id[2] == 'q' && |id| >= 5 then 47 + ParseDigits(id[5..])
    else if id[2] == 'r' && |id| >= 6 then 61 + ParseDigits(id[6..])
    else if id[2] == 'c' && |id| >= 7 then 72 + ParseDigits(id[7..])
    else if id[2] == 's' && |id| >= 8 then 80 + 2 * ParseDigits(id[8..])
    else if id[2] == 'n' && |id| >= 6 then 81 + 2 * ParseDigits(id[6..])
    else if id[2] == 'd' && |id| >= 7 then 91 + ParseDigits(id[7..])
    else if id[2] == 'i' && |id| >= 6 then 99 + ParseDigits(id[6..])
    else -1
  }

  /** A prefix followed by a number: the number reads back after the prefix. */
  lemma ReadAfterPrefix(p: string, n: nat)
    ensures (p + NatToString(n))[..|p|] == p
    ensures ParseDigits((p + NatToString(n))[|p|..]) == n
  {
    assert (p + NatToString(n))[|p|..] == NatToString(n);
    ParseNatToString(n);
  }

  /** What holds of the mission at position `k`: its id decodes to `k`; it
      gives one XP; it has at least two steps with distinct ids; only the
      first four onboarding missions and day 1 start available, the rest
      locked; the prio missions are the first two onboarding missions, the
      check-ins and the monthly tasks; levels required lie in 0..8. */
  ghost predicate Catalogued(m: Mission, k: int) {
    Position(m.id) == k
    && m.xpReward == 1
    && |m.steps| >= 2 && NoDuplicates(StepIds(m.steps))
    && (m.status == Available <==> k <= 3 || k == 5)
    && (m.status == Available || m.status == Locked)
    && (m.isPrio <==> k <= 1 || 5 <= k < 47)
    && m.minLevel.Some? && 0 <= m.minLevel.value <= 8
  }

  ghost predicate AllCatalogued(s: seq<Mission>, offset: int) {
    forall k :: 0 <= k < |s| ==> Catalogued(s[k], offset + k)
  }

  // Each builder, one mission at a time.

  lemma OnboardingMissionCatalogued(k: nat)
    requires k < 5
    ensures Catalogued(OnboardingMission(k), k)
    ensures OnboardingMission(k).minLevel == Some(if k == 4 then 1 else 0)
  {
    OnboardingLevel(k);
    if k == 0 {
      OnboardingCatalogued0();
    } else if k == 1 {
      OnboardingCatalogued1();
    } else if k == 2 {
      OnboardingCatalogued2();
    } else if k == 3 {
      OnboardingCatalogued3();
    } else {
      OnboardingCatalogued4();
    }
  }

  /** The first four onboarding missions need no level; the guidelines need level 1. */
  lemma OnboardingLevel(k: nat)
    requires k < 5
    ensures OnboardingMission(k).minLevel == Some(if k == 4 then 1 else 0)
  {
  }

  lemma OnboardingCatalogued0() ensures Catalogued(OnboardingMission(0), 0) {
    CreatedSteps("m_onb_001", IdentitySteps);
  }

  lemma OnboardingCatalogued1() ensures Catalogued(OnboardingMission(1), 1) {
    CreatedSteps("m_onb_002", NdaSteps);
  }

  lemma OnboardingCatalogued2() ensures Catalogued(OnboardingMission(2), 2) {
    CreatedSteps("m_onb_003", SecuritySteps);
  }

  lemma OnboardingCatalogued3() ensures Catalogued(OnboardingMission(3), 3) {
    CreatedSteps("m_onb_004", CompetenceSteps);
  }

  lemma OnboardingCatalogued4() ensures Catalogued(OnboardingMission(4), 4) {
    CreatedSteps("m_onb_005", GuidelinesSteps);
  }

  lemma DailyCheckInCatalogued(i: nat)
    requires 1 <= i <= 30
    ensures Catalogued(DailyCheckIn(i), 4 + i)
    ensures DailyCheckIn(i).minLevel == Some(0)
  {
    var id := DailyId(i);
    ReadAfterPrefix("m_prio_daily_", i);
    assert id[2] == 'p' && |id| >= 13 && id[7] == 'd' && Position(id) == 4 + i;
    CreatedSteps(id, CheckInSteps);
  }

  lemma MonthlyTaskCatalogued(idx: nat, month: nat)
    requires idx < |MonthlyTasks| && 1 <= month <= 3
    ensures Catalogued(MonthlyTask(idx, month), 35 + 3 * idx + month - 1)
    ensures MonthlyTask(idx, month).minLevel == Some(month)
  {
    var id := MonthlyId(idx, month);
    assert id == "m_prio_m_" + [DigitChar(idx)] + "_" + [DigitChar(month)];
    CreatedSteps(id, MonthlySteps);
  }

  lemma QualityCheckCatalogued(i: nat)
    requires i < |QaTasks|
    ensures Catalogued(QualityCheck(i), 47 + i)
    ensures QualityCheck(i).minLevel == Some(i / 3 + 2)
  {
    var id := QualityId(i);
    ReadAfterPrefix("m_qc_", i);
    assert id[2] == 'q' && |id| >= 5 && Position(id) == 47 + i;
    CreatedSteps(id, QualitySteps);
  }

  lemma PeerReviewCatalogued(i: nat)
    requires 1 <= i <= 10
    ensures Catalogued(PeerReview(i), 61 + i)
    ensures PeerReview(i).minLevel == Some(5)
  {
    var id := ReviewId(i);
    ReadAfterPrefix("m_rev_", i);
    assert id[2] == 'r' && |id| >= 6 && Position(id) == 61 + i;
    CreatedSteps(id, ReviewSteps);
  }

  lemma ContentTaskCatalogued(i: nat)
    requires i < |ContentTasks|
    ensures Catalogued(ContentTask(i), 72 + i)
    ensures ContentTask(i).minLevel == Some(3)
  {
    var id := ContentId(i);
    ReadAfterPrefix("m_cont_", i);
    assert id[2] == 'c' && |id| >= 7 && Position(id) == 72 + i;
    CreatedSteps(id, ContentSteps);
  }

  lemma SalesLeadCatalogued(i: nat)
    requires 1 <= i <= 5
    ensures Catalogued(SalesLead(i), 80 + 2 * i)
    ensures SalesLead(i).minLevel == Some(4)
  {
    var id := SalesId(i);
    ReadAfterPrefix("m_sales_", i);
    assert id[2] == 's' && |id| >= 8 && Position(id) == 80 + 2 * i;
    CreatedSteps(id, SalesSteps);
  }

  lemma PartnerOutreachCatalogued(i: nat)
    requires 1 <= i <= 5
    ensures Catalogued(PartnerOutreach(i), 81 + 2 * i)
    ensures PartnerOutreach(i).minLevel == Some(6)
  {
    var id := NetworkId(i);
    ReadAfterPrefix("m_net_", i);
    assert id[2] == 'n' && |id| >= 6 && Position(id) == 81 + 2 * i;
    CreatedSteps(id, NetworkSteps);
  }

  lemma DataTaskCatalogued(i: nat)
    requires 1 <= i <= 8
    ensures Catalogued(DataTask(i), 91 + i)
    ensures DataTask(i).minLevel == Some(2)
  {
    var id := DataId(i);
    ReadAfterPrefix("m_data_", i);
    assert id[2] == 'd' && |id| >= 7 && Position(id) == 91 + i;
    CreatedSteps(id, DataSteps);
  }

  lemma InvestmentAnalysisCatalogued(i: nat)
    requires 1 <= i <= 10
    ensures Catalogued(InvestmentAnalysis(i), 99 + i)
    ensures InvestmentAnalysis(i).minLevel == Some(8)
  {
    var id := InvestmentId(i);
    ReadAfterPrefix("m_inv_", i);
    assert id[2] == 'i' && |id| >= 6 && Position(id) == 99 + i;
    CreatedSteps(id, InvestmentSteps);
  }

  // Each block, from its block predicate.

  lemma OnboardingBlockCatalogued(s: seq<Mission>)
    requires HoldsOnboarding(s)
    ensures AllCatalogued(s, 0)
  {
    forall k | 0 <= k < 5 ensures Catalogued(s[k], k) {
      assert s[k] == OnboardingMission(k);
      OnboardingMissionCatalogued(k);
    }
  }

  lemma CheckInBlockCatalogued(s: seq<Mission>)
    requires HoldsCheckIns(s, 30)
    ensures AllCatalogued(s, 5)
  {
    forall k | 0 <= k < 30 ensures Catalogued(s[k], 5 + k) {
      assert s[k] == DailyCheckIn(k + 1);
      DailyCheckInCatalogued(k + 1);
    }
  }

  lemma MonthlyBlockCatalogued(s: seq<Mission>)
    requires HoldsMonthly(s, 12)
    ensures AllCatalogued(s, 35)
  {
    forall k | 0 <= k < 12 ensures Catalogued(s[k], 35 + k) {
      assert s[k] == MonthlyTask(k / 3, k % 3 + 1);
      MonthlyTaskCatalogued(k / 3, k % 3 + 1);
    }
  }

  lemma QualityBlockCatalogued(s: seq<Mission>)
    requires HoldsQualityChecks(s, 15)
    ensures AllCatalogued(s, 47)
  {
    forall k | 0 <= k < 15 ensures Catalogued(s[k], 47 + k) {
      assert s[k] == QualityCheck(k);
      QualityCheckCatalogued(k);
    }
  }

  lemma ReviewBlockCatalogued(s: seq<Mission>)
    requires HoldsReviews(s, 10)
    ensures AllCatalogued(s, 62)
  {
    forall k | 0 <= k < 10 ensures Catalogued(s[k], 62 + k) {
      assert s[k] == PeerReview(k + 1);
      PeerReviewCatalogued(k + 1);
    }
  }

  lemma ContentBlockCatalogued(s: seq<Mission>)
    requires HoldsContent(s, 10)
    ensures AllCatalogued(s, 72)
  {
    forall k | 0 <= k < 10 ensures Catalogued(s[k], 72 + k) {
      assert s[k] == ContentTask(k);
      ContentTaskCatalogued(k);
    }
  }

  lemma SalesNetworkBlockCatalogued(s: seq<Mission>)
    requires HoldsSalesNetwork(s, 5)
    ensures AllCatalogued(s, 82)
  {
    forall k | 0 <= k < 10 ensures Catalogued(s[k], 82 + k) {
      if k % 2 == 0 {
        SalesRoundCatalogued(s, k / 2 + 1);
      } else {
        NetworkRoundCatalogued(s, k / 2 + 1);
      }
    }
  }

  lemma SalesRoundCatalogued(s: seq<Mission>, i: int)
    requires HoldsSalesNetwork(s, 5)
    requires 1 <= i <= 5
    ensures Catalogued(s[2 * i - 2], 82 + 2 * i - 2)
  {
    assert s[2 * i - 2] == SalesLead(i);
    SalesLeadCatalogued(i);
  }

  lemma NetworkRoundCatalogued(s: seq<Mission>, i: int)
    requires HoldsSalesNetwork(s, 5)
    requires 1 <= i <= 5
    ensures Catalogued(s[2 * i - 1], 82 + 2 * i - 1)
  {
    assert s[2 * i - 1] == PartnerOutreach(i);
    PartnerOutreachCatalogued(i);
  }

  lemma DataBlockCatalogued(s: seq<Mission>)
    requires HoldsDataTasks(s, 8)
    ensures AllCatalogued(s, 92)
  {
    forall k | 0 <= k < 8 ensures Catalogued(s[k], 92 + k) {
      assert s[k] == DataTask(k + 1);
      DataTaskCatalogued(k + 1);
    }
  }

  lemma InvestmentBlockCatalogued(s: seq<Mission>)
    requires HoldsInvestments(s, 10)
    ensures AllCatalogued(s, 100)
  {
    forall k | 0 <= k < 10 ensures Catalogued(s[k], 100 + k) {
      assert s[k] == InvestmentAnalysis(k + 1);
      InvestmentAnalysisCatalogued(k + 1);
    }
  }

  /** Two adjacent catalogued slices make one. */
  lemma JoinCatalogued(s: seq<Mission>, lo: nat, mid: nat, hi: nat)
    requires lo <= mid <= hi <= |s|
    requires AllCatalogued(s[lo..mid], lo) && AllCatalogued(s[mid..hi], mid)
    ensures AllCatalogued(s[lo..hi], lo)
  {
    forall k | 0 <= k < hi - lo ensures Catalogued(s[lo..hi][k], lo + k) {
      if k < mid - lo {
        assert s[lo..hi][k] == s[lo..mid][k];
      } else {
        assert s[lo..hi][k] == s[mid..hi][k - (mid - lo)];
      }
    }
  }

  /** Every mission of the library satisfies `Catalogued` at its position. */
  lemma LibraryCatalogued(s: seq<Mission>)
    requires IsLibrary(s)
    ensures AllCatalogued(s, 0)
  {
    OnboardingBlockCatalogued(s[0..5]);
    CheckInBlockCatalogued(s[5..35]);
    MonthlyBlockCatalogued(s[35..47]);
    QualityBlockCatalogued(s[47..62]);
    ReviewBlockCatalogued(s[62..72]);
    ContentBlockCatalogued(s[72..82]);
    SalesNetworkBlockCatalogued(s[82..92]);
    DataBlockCatalogued(s[92..100]);
    InvestmentBlockCatalogued(s[100..110]);
    JoinCatalogued(s, 0, 5, 35);
    JoinCatalogued(s, 0, 35, 47);
    JoinCatalogued(s, 0, 47, 62);
    JoinCatalogued(s, 0, 62, 72);
    JoinCatalogued(s, 0, 72, 82);
    JoinCatalogued(s, 0, 82, 92);
    JoinCatalogued(s, 0, 92, 100);
    JoinCatalogued(s, 0, 100, 110);
    assert s[0..110] == s;
  }

  /** Ids that decode to their positions are distinct. */
  lemma CataloguedIdsDistinct(s: seq<Mission>, offset: int)
    requires AllCatalogued(s, offset)
    ensures IdsDistinct(s)
  {
    forall a, b | 0 <= a < b < |s| ensures s[a].id != s[b].id {
      assert Catalogued(s[a], offset + a) && Catalogued(s[b], offset + b);
    }
  }

  /** All 110 mission ids of the library are distinct. */
  lemma LibraryIdsDistinct(s: seq<Mission>)
    requires IsLibrary(s)
    ensures IdsDistinct(s)
  {
    LibraryCatalogued(s);
    CataloguedIdsDistinct(s, 0);
  }

  /** The 30 daily check-ins follow the five onboarding missions; all are
      prio, and only day 1 is available. */
  lemma LibraryCheckIns(s: seq<Mission>)
    requires IsLibrary(s)
    ensures forall k :: 5 <= k < 35 ==> s[k].isPrio && (s[k].status == Available <==> k == 5)
  {
    LibraryCatalogued(s);
    forall k | 5 <= k < 35 ensures s[k].isPrio && (s[k].status == Available <==> k == 5) {
      assert Catalogued(s[k], k);
    }
  }

  /** Monthly missions require the level of their month: 1, 2, 3 for
      each of the four tasks in turn. */
  lemma LibraryMonthlyLevels(s: seq<Mission>)
    requires IsLibrary(s)
    ensures forall k :: 35 <= k < 47 ==> s[k].minLevel == Some((k - 35) % 3 + 1) && s[k].isPrio
  {
    forall k | 35 <= k < 47 ensures s[k].minLevel == Some((k - 35) % 3 + 1) && s[k].isPrio {
      assert s[35..47][k - 35] == MonthlyTask((k - 35) / 3, (k - 35) % 3 + 1);
    }
  }

  /** Quality check `i` requires level `floor(i/3) + 2`, which lies in 2..6. */
  lemma LibraryQualityLevels(s: seq<Mission>)
    requires IsLibrary(s)
    ensures forall i :: 0 <= i < 15 ==> s[47 + i].minLevel == Some(i / 3 + 2) && 2 <= i / 3 + 2 <= 6
  {
    forall i | 0 <= i < 15 ensures s[47 + i].minLevel == Some(i / 3 + 2) {
      assert s[47..62][i] == QualityCheck(i);
    }
  }
}
