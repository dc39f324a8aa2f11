/** The dashboard (pages/Dashboard.tsx): a welcome banner and one tile per university
    service; a tile click either opens the service's external link or navigates. */
module Dashboard {
  import opened Types
  import opened Effects

  /** JavaScript truthiness of an optional string field: absent and `""` are both false. */
  predicate Truthy(field: Option<string>) {
    field.Some? && field.value != ""
  }

  /** `handleServiceClick`: an external link wins over a view; with neither, nothing
      happens. */
  function ServiceClick(s: UniversityService): (e: Effect)
    ensures e.OpenUrl? <==> Truthy(s.externalUrl)
    ensures e.OpenUrl? ==> e.url == s.externalUrl.value && e.url != ""
    ensures e.ChangeView? <==> !Truthy(s.externalUrl) && s.view.Some?
    ensures e.ChangeView? ==> e.view == s.view.value
    ensures e == NoEffect <==> !Truthy(s.externalUrl) && s.view.None?
    ensures e.NoEffect? || e.OpenUrl? || e.ChangeView?
  {
    if Truthy(s.externalUrl) then OpenUrl(s.externalUrl.value)
    else if s.view.Some? then ChangeView(s.view.value)
    else NoEffect
  }

  /** A view, once present, is always truthy: every view's string value is non-empty. */
  lemma ViewsAreTruthy(v: AppView)
    ensures ViewId(v) != ""
  {
  }

  /** With a non-empty link, the tile's view (whatever it is) has no say. */
  lemma LinkOverridesView(s: UniversityService, v: Option<AppView>)
    requires Truthy(s.externalUrl)
    ensures ServiceClick(s.(view := v)) == ServiceClick(s) == OpenUrl(s.externalUrl.value)
  {
  }

  /** An empty link behaves as no link at all. */
  lemma EmptyLinkIsNoLink(s: UniversityService)
    ensures ServiceClick(s.(externalUrl := Some(""))) == ServiceClick(s.(externalUrl := None))
  {
  }

  /** The icons `ServiceIcon` draws. */
  datatype Icon =
    | LibraryIcon | UsersIcon | CreditCardIcon | MailIcon | GraduationCapIcon | GlobeIcon
    | DatabaseIcon | CheckCircleIcon | ClipboardListIcon | CloudLightningIcon
    | PhoneCallIcon | ZapIcon | AwardIcon | ScaleIcon | MonitorIcon

  /** The icon names with a case of their own. */
  const KnownIconNames: seq<string> :=
    ["Library", "Users", "CreditCard", "Mail", "UserCircle", "Globe", "Database",
     "FileCheck", "ClipboardList", "CloudLightning", "PhoneCall", "Zap", "Award", "Scale"]

  /** `ServiceIcon`'s switch: total, with the monitor icon for every unknown name. */
  function ServiceIcon(name: string): (i: Icon)
    ensures i == MonitorIcon <==> name !in KnownIconNames
    ensures name == "UserCircle" ==> i == GraduationCapIcon
    ensures name == "FileCheck" ==> i == CheckCircleIcon
  {
    match name
    case "Library" => LibraryIcon
    case "Users" => UsersIcon
    case "CreditCard" => CreditCardIcon
    case "Mail" => MailIcon
    case "UserCircle" => GraduationCapIcon
    case "Globe" => GlobeIcon
    case "Database" => DatabaseIcon
    case "FileCheck" => CheckCircleIcon
    case "ClipboardList" => ClipboardListIcon
    case "CloudLightning" => CloudLightningIcon
    case "PhoneCall" => PhoneCallIcon
    case "Zap" => ZapIcon
    case "Award" => AwardIcon
    case "Scale" => ScaleIcon
    case _ => MonitorIcon
  }

  /** The name under which each icon other than the fallback is requested. */
  function IconName(i: Icon): (name: string)
    requires i != MonitorIcon
    ensures name in KnownIconNames
  {
    match i
    case LibraryIcon => "Library"
    case UsersIcon => "Users"
    case CreditCardIcon => "CreditCard"
    case MailIcon => "Mail"
    case GraduationCapIcon => "UserCircle"
    case GlobeIcon => "Globe"
    case DatabaseIcon => "Database"
    case CheckCircleIcon => "FileCheck"
    case ClipboardListIcon => "ClipboardList"
    case CloudLightningIcon => "CloudLightning"
    case PhoneCallIcon => "PhoneCall"
    case ZapIcon => "Zap"
    case AwardIcon => "Award"
    case ScaleIcon => "Scale"
  }

  /** A known name is requested back by the icon it selects. */
  lemma NameOfServiceIcon(name: string)
    requires ServiceIcon(name) != MonitorIcon
    ensures IconName(ServiceIcon(name)) == name
  {
    var k :| 0 <= k < |KnownIconNames| && KnownIconNames[k] == name;
    if k < 7 {
      if k == 0 {} else if k == 1 {} else if k == 2 {} else if k == 3 {}
      else if k == 4 {} else if k == 5 {} else {}
    } else {
      if k == 7 {} else if k == 8 {} else if k == 9 {} else if k == 10 {}
      else if k == 11 {} else if k == 12 {} else {}
    }
  }

  /** Every icon but the fallback is reachable, from exactly one name. */
  lemma IconNamesRoundTrip(i: Icon, name: string)
    requires i != MonitorIcon
    ensures ServiceIcon(IconName(i)) == i
    ensures ServiceIcon(name) == i <==> name == IconName(i)
  {
    if ServiceIcon(name) == i {
      NameOfServiceIcon(name);
    }
  }

  /** The icon's class: the service colour when truthy, else the neutral slate. */
  function IconClass(color: Option<string>): (c: string)
    ensures Truthy(color) ==> c == color.value
    ensures !Truthy(color) ==> c == "text-slate-400"
    ensures c != ""
  {
    if Truthy(color) then color.value else "text-slate-400"
  }

  /** The banner's badge. */
  function WelcomeBadge(user: Option<User>): (badge: string)
    ensures badge == "Active Student" <==> user.Some?
    ensures user.None? ==> badge == "Institutional Portal"
  {
    if user.Some? then "Active Student" else "Institutional Portal"
  }

  /** The services grid: one tile per service, in order, each with its icon and the action
      its click performs. */
  datatype Tile = Tile(id: string, icon: Icon, iconClass: string, title: string, onClick: Effect)

  function Tiles(services: seq<UniversityService>, lang: Language): (ts: seq<Tile>)
    ensures |ts| == |services|
    ensures forall k :: 0 <= k < |ts| ==>
      ts[k].id == services[k].id && ts[k].icon == ServiceIcon(services[k].icon)
      && ts[k].iconClass == IconClass(services[k].color)
      && ts[k].title == (if lang == Ar then services[k].titleAr else services[k].title)
      && ts[k].onClick == ServiceClick(services[k])
  {
    if services == [] then []
    else
      var s := services[0];
      [Tile(s.id, ServiceIcon(s.icon), IconClass(s.color), if lang == Ar then s.titleAr else s.title,
            ServiceClick(s))] + Tiles(services[1..], lang)
  }
}
