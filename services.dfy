/** The services hub (pages/Services.tsx): one card per university service with a status
    badge and a launch button, and a list of recent requests. */
module Services {
  import opened Types

  /** The text the status badge shows, which is also what the page compares. */
  function StatusName(st: ServiceStatus): string {
    match st
    case Available => "Available"
    case Maintenance => "Maintenance"
    case Restricted => "Restricted"
  }

  /** Distinct statuses print differently. */
  lemma StatusNamesDistinct(a: ServiceStatus, b: ServiceStatus)
    ensures StatusName(a) == StatusName(b) <==> a == b
  {
  }

  /** The launch button's `disabled` attribute is `status !== 'Available'`. */
  function LaunchEnabled(st: ServiceStatus): (enabled: bool)
    ensures enabled <==> st == Available
  {
    StatusName(st) == "Available"
  }

  /** The badge's two colour schemes. */
  datatype Tone = Emerald | Amber

  function StatusTone(st: ServiceStatus): (t: Tone)
    ensures t == Emerald <==> st == Available
  {
    if StatusName(st) == "Available" then Emerald else Amber
  }

  /** The badge is green exactly when the service can be launched. */
  lemma BadgeAgreesWithLaunch(st: ServiceStatus)
    ensures StatusTone(st) == Emerald <==> LaunchEnabled(st)
  {
  }

  /** A service card as the page lays it out. */
  datatype Card = Card(
    id: string, badge: string, tone: Tone, category: ServiceCategory,
    title: string, description: string, launchEnabled: bool)

  function CardOf(s: UniversityService, lang: Language): (c: Card)
    ensures c.id == s.id && c.category == s.category
    ensures c.badge == StatusName(s.status)
    ensures c.launchEnabled <==> s.status == Available
    ensures c.tone == Emerald <==> c.launchEnabled
    ensures c.title == (if lang == Ar then s.titleAr else s.title)
    ensures c.description == (if lang == Ar then s.descriptionAr else s.description)
  {
    Card(s.id, StatusName(s.status), StatusTone(s.status), s.category,
         if lang == Ar then s.titleAr else s.title,
         if lang == Ar then s.descriptionAr else s.description,
         LaunchEnabled(s.status))
  }

  /** `SERVICES.map(...)`: one card per service, in order. */
  function Cards(services: seq<UniversityService>, lang: Language): (cs: seq<Card>)
    ensures |cs| == |services|
    ensures forall k :: 0 <= k < |cs| ==> cs[k] == CardOf(services[k], lang)
  {
    if services == [] then [] else [CardOf(services[0], lang)] + Cards(services[1..], lang)
  }

  /** The statuses a request row treats as finished, in both languages. */
  const CompletedStatuses: seq<string> := ["Completed", "Resolved", "مكتمل", "تم الحل"]

  predicate IsCompleted(status: string) {
    status == "Completed" || status == "Resolved" || status == "مكتمل" || status == "تم الحل"
  }

  /** A recent-request row. */
  datatype Request = Request(title: string, date: string, status: string, reference: string)

  /** The three rows of the recent-request list, in the display language. */
  function RecentRequests(lang: Language): (rs: seq<Request>)
    ensures |rs| == 3
    ensures rs[0].reference == "ZNU-SERV-8821" && rs[1].reference == "ZNU-SERV-9012" && rs[2].reference == "ZNU-SERV-7712"
  {
    var ar := lang == Ar;
    [ Request(if ar then "سجل أكاديمي رسمي (رقمي)" else "Official Transcript (Digital)",
              if ar then "منذ يومين" else "2 days ago",
              if ar then "مكتمل" else "Completed", "ZNU-SERV-8821"),
      Request(if ar then "تسجيل الفصل الصيفي" else "Summer Course Registration",
              if ar then "منذ 5 أيام" else "5 days ago",
              if ar then "قيد الانتظار" else "Pending Approval", "ZNU-SERV-9012"),
      Request(if ar then "الدعم الفني: دخول البوابة" else "IT Helpdesk: Portal Login",
              "Oct 02, 2024",
              if ar then "تم الحل" else "Resolved", "ZNU-SERV-7712") ]
  }

  /** The request predicate is membership in the four finished statuses. */
  lemma CompletedIsMembership(status: string)
    ensures IsCompleted(status) <==> status in CompletedStatuses
  {
  }

  /** How a request row is drawn: the icon, the icon's tint and the status text's colour. */
  datatype RowIcon = CheckIcon | ClockIcon
  datatype RowTone = Green | BlueTone
  datatype RequestRow = RequestRow(icon: RowIcon, iconTone: RowTone, labelTone: RowTone, text: string)

  /** Each of the three places tests the status on its own; they use the same test. */
  function RowOf(r: Request): (row: RequestRow)
    ensures row.icon == CheckIcon <==> IsCompleted(r.status)
    ensures row.iconTone == Green <==> IsCompleted(r.status)
    ensures row.labelTone == Green <==> IsCompleted(r.status)
    ensures row.text == r.status
  {
    RequestRow(if IsCompleted(r.status) then CheckIcon else ClockIcon,
               if IsCompleted(r.status) then Green else BlueTone,
               if IsCompleted(r.status) then Green else BlueTone,
               r.status)
  }

  /** Icon, tint and label colour always agree. */
  lemma RowIsConsistent(r: Request)
    ensures (RowOf(r).icon == CheckIcon) == (RowOf(r).iconTone == Green) == (RowOf(r).labelTone == Green)
  {
  }

  /** The list reads the same in both languages: the first and last requests are finished,
      the pending one is not. */
  lemma CompletionAgreesAcrossLanguages()
    ensures forall k :: 0 <= k < 3 ==>
      IsCompleted(RecentRequests(Ar)[k].status) == IsCompleted(RecentRequests(En)[k].status)
    ensures IsCompleted(RecentRequests(En)[0].status)
    ensures !IsCompleted(RecentRequests(En)[1].status)
    ensures IsCompleted(RecentRequests(En)[2].status)
  {
    var ar := RecentRequests(Ar);
    var en := RecentRequests(En);
    assert ar[0].status == "مكتمل" && en[0].status == "Completed";
    assert ar[1].status == "قيد الانتظار" && en[1].status == "Pending Approval";
    assert ar[2].status == "تم الحل" && en[2].status == "Resolved";
  }
}
