/**
 * The user slice's Redux actions (src/redux/actions/userActions.ts): the
 * eleven action creators and the thunks that persist preferences and dispatch.
 *
 * The preference and user-information records are declared in files that are
 * not part of this model; only the fields the thunks touch are spelled out
 * (`theme`, the `mobile` and `computer` device entries and each entry's
 * `dashboard`), the rest are carried as opaque key/value settings. The network
 * call `updatePreference` becomes a step whose success or failure is an input,
 * and the reducer that `dispatch` runs is a parameter of the store.
 */
module UserActions {
  import opened Types

  /** THEME: its members are declared outside this model, so a theme is known only by its name. */
  datatype Theme = Theme(name: string)

  datatype UserInformation = UserInformation(fields: map<string, string>)

  datatype DashboardPreferences = DashboardPreferences(settings: map<string, string>)

  datatype DevicePreferences = DevicePreferences(dashboard: DashboardPreferences, otherSettings: map<string, string>)

  datatype Preferences = Preferences(
    theme: Theme,
    mobile: DevicePreferences,
    computer: DevicePreferences,
    otherSettings: map<string, string>)

  /** DeviceType: 'mobile' | 'computer'. */
  datatype Device = Mobile | Computer

  /** The user actions; `Tag()` is the action's `type` string. */
  datatype UserAction =
    | UserInformationUpdate(userInformation: UserInformation)
    | HoldingSummaryUpdate(holdingSummary: HoldingSummary)
    | UserHoldingsUpdate(holdings: Holdings)
    | ThemePreferencesUpdate(theme: Theme)
    | UserPreferencesUpdate(preferences: Preferences)
    | MobilePreferencesUpdate(devicePreferences: DevicePreferences)
    | ComputerPreferencesUpdate(devicePreferences: DevicePreferences)
    | MobileDashboardPreferencesUpdate(dashboard: DashboardPreferences)
    | ComputerDashboardPreferencesUpdate(dashboard: DashboardPreferences)
    | MobileDashboardVisibleColumnsUpdate(columns: seq<Column>)
    | ComputerDashboardVisibleColumnsUpdate(columns: seq<Column>)
  {
    /** The action's `type` string. */
    function Tag(): (tag: string)
      ensures |tag| > |"UPDATE_"|
    {
      match this
      case UserInformationUpdate(_) => "UPDATE_USER_INFORMATION"
      case HoldingSummaryUpdate(_) => "UPDATE_HOLDING_SUMMARY"
      case UserHoldingsUpdate(_) => "UPDATE_USER_HOLDINGS"
      case ThemePreferencesUpdate(_) => "UPDATE_THEME_PREFERENCES"
      case UserPreferencesUpdate(_) => "UPDATE_USER_PREFERENCES"
      case MobilePreferencesUpdate(_) => "UPDATE_MOBILE_PREFERENCES"
      case ComputerPreferencesUpdate(_) => "UPDATE_COMPUTER_PREFERENCES"
      case MobileDashboardPreferencesUpdate(_) => "UPDATE_MOBILE_DASHBOARD_PREFERENCES"
      case ComputerDashboardPreferencesUpdate(_) => "UPDATE_COMPUTER_DASHBOARD_PREFERENCES"
      case MobileDashboardVisibleColumnsUpdate(_) => "UPDATE_MOBILE_DASHBOARD_VISIBLE_COLUMN_PREFERENCES"
      case ComputerDashboardVisibleColumnsUpdate(_) => "UPDATE_COMPUTER_DASHBOARD_VISIBLE_COLUMN_PREFERENCES"
    }
  }

  /** Two actions with the same `type` string are of the same kind. */
  lemma TagIdentifiesKind(a: UserAction, b: UserAction)
    ensures a.Tag() == b.Tag() ==> a.UserInformationUpdate? == b.UserInformationUpdate?
    ensures a.Tag() == b.Tag() ==> a.ThemePreferencesUpdate? == b.ThemePreferencesUpdate?
    ensures a.Tag() == b.Tag() ==> a.MobileDashboardPreferencesUpdate? == b.MobileDashboardPreferencesUpdate?
    ensures a.Tag() == b.Tag() ==> a.ComputerDashboardPreferencesUpdate? == b.ComputerDashboardPreferencesUpdate?
    ensures a.Tag() == b.Tag() ==> a.MobileDashboardVisibleColumnsUpdate? == b.MobileDashboardVisibleColumnsUpdate?
    ensures a.Tag() == b.Tag() ==> a.ComputerDashboardVisibleColumnsUpdate? == b.ComputerDashboardVisibleColumnsUpdate?
    ensures a.Tag() == b.Tag() ==> a.MobilePreferencesUpdate? == b.MobilePreferencesUpdate?
    ensures a.Tag() == b.Tag() ==> a.ComputerPreferencesUpdate? == b.ComputerPreferencesUpdate?
    ensures a.Tag() == b.Tag() ==> a.UserPreferencesUpdate? == b.UserPreferencesUpdate?
    ensures a.Tag() == b.Tag() ==> a.UserHoldingsUpdate? == b.UserHoldingsUpdate?
    ensures a.Tag() == b.Tag() ==> a.HoldingSummaryUpdate? == b.HoldingSummaryUpdate?
  {
  }

  function UpdateUserInformation(payload: UserInformation): (a: UserAction)
    ensures a.Tag() == "UPDATE_USER_INFORMATION" && a.userInformation == payload
  {
    UserInformationUpdate(payload)
  }

  function UpdateHoldingSummary(payload: HoldingSummary): (a: UserAction)
    ensures a.Tag() == "UPDATE_HOLDING_SUMMARY" && a.holdingSummary == payload
  {
    HoldingSummaryUpdate(payload)
  }

  function UpdateUserHoldings(payload: Holdings): (a: UserAction)
    ensures a.Tag() == "UPDATE_USER_HOLDINGS" && a.holdings == payload
  {
    UserHoldingsUpdate(payload)
  }

  function UpdateThemePreferences(payload: Theme): (a: UserAction)
    ensures a.Tag() == "UPDATE_THEME_PREFERENCES" && a.theme == payload
  {
    ThemePreferencesUpdate(payload)
  }

  function UpdateUserPreferences(payload: Preferences): (a: UserAction)
    ensures a.Tag() == "UPDATE_USER_PREFERENCES" && a.preferences == payload
  {
    UserPreferencesUpdate(payload)
  }

  function UpdateMobilePreferences(payload: DevicePreferences): (a: UserAction)
    ensures a.Tag() == "UPDATE_MOBILE_PREFERENCES" && a.devicePreferences == payload
  {
    MobilePreferencesUpdate(payload)
  }

  function UpdateComputerPreferences(payload: DevicePreferences): (a: UserAction)
    ensures a.Tag() == "UPDATE_COMPUTER_PREFERENCES" && a.devicePreferences == payload
  {
    ComputerPreferencesUpdate(payload)
  }

  function UpdateMobileDashboardPreferences(payload: DashboardPreferences): (a: UserAction)
    ensures a.Tag() == "UPDATE_MOBILE_DASHBOARD_PREFERENCES" && a.dashboard == payload
  {
    MobileDashboardPreferencesUpdate(payload)
  }

  function UpdateComputerDashboardPreferences(payload: DashboardPreferences): (a: UserAction)
    ensures a.Tag() == "UPDATE_COMPUTER_DASHBOARD_PREFERENCES" && a.dashboard == payload
  {
    ComputerDashboardPreferencesUpdate(payload)
  }

  function UpdateComputerDashboardVisibleColumnPreferences(payload: seq<Column>): (a: UserAction)
    ensures a.Tag() == "UPDATE_COMPUTER_DASHBOARD_VISIBLE_COLUMN_PREFERENCES" && a.columns == payload
  {
    ComputerDashboardVisibleColumnsUpdate(payload)
  }

  function UpdateMobileDashboardVisibleColumnPreferences(payload: seq<Column>): (a: UserAction)
    ensures a.Tag() == "UPDATE_MOBILE_DASHBOARD_VISIBLE_COLUMN_PREFERENCES" && a.columns == payload
  {
    MobileDashboardVisibleColumnsUpdate(payload)
  }

  /** `preferences[device]`. */
  function DeviceEntry(p: Preferences, device: Device): (entry: DevicePreferences)
    ensures device == Mobile ==> entry == p.mobile
    ensures device == Computer ==> entry == p.computer
  {
    match device
    case Mobile => p.mobile
    case Computer => p.computer
  }

  /** The other device. */
  function OtherDevice(device: Device): (d: Device)
    ensures d != device
  {
    if device == Mobile then Computer else Mobile
  }

  /** `{...p, [device]: {...p[device], dashboard}}`. */
  function WithDashboard(p: Preferences, device: Device, dashboard: DashboardPreferences): (r: Preferences)
    ensures DeviceEntry(r, device).dashboard == dashboard
    ensures DeviceEntry(r, device).otherSettings == DeviceEntry(p, device).otherSettings
    ensures DeviceEntry(r, OtherDevice(device)) == DeviceEntry(p, OtherDevice(device))
    ensures r.theme == p.theme && r.otherSettings == p.otherSettings
  {
    match device
    case Mobile => p.(mobile := p.mobile.(dashboard := dashboard))
    case Computer => p.(computer := p.computer.(dashboard := dashboard))
  }

  /** Writing back the dashboard already there changes nothing. */
  lemma WithDashboardUnchanged(p: Preferences, device: Device)
    ensures WithDashboard(p, device, DeviceEntry(p, device).dashboard) == p
  {
  }

  /** The last dashboard written wins. */
  lemma WithDashboardOverwrites(p: Preferences, device: Device, first: DashboardPreferences, second: DashboardPreferences)
    ensures WithDashboard(WithDashboard(p, device, first), device, second) == WithDashboard(p, device, second)
  {
  }

  /** `{...p, theme}`. */
  function WithTheme(p: Preferences, theme: Theme): (r: Preferences)
    ensures r.theme == theme
    ensures r.mobile == p.mobile && r.computer == p.computer && r.otherSettings == p.otherSettings
  {
    p.(theme := theme)
  }

  /** What the store observes, in order: dispatched actions and persist attempts with their outcome. */
  datatype Effect =
    | Dispatched(action: UserAction)
    | Persisted(preferences: Preferences, succeeded: bool)

  /** Every dispatch in `effects` comes after a persist attempt that succeeded. */
  ghost predicate DispatchFollowsSuccessfulPersist(effects: seq<Effect>)
  {
    forall i :: 0 <= i < |effects| && effects[i].Dispatched? ==>
      exists j :: 0 <= j < i && effects[j].Persisted? && effects[j].succeeded
  }

  /** The effects of updateDashboardPreferencesThunk: persist, then dispatch only on success. */
  function DashboardThunkEffects(
    p: Preferences, device: Device, dashboard: DashboardPreferences,
    updateAction: DashboardPreferences -> UserAction, persistSucceeds: bool): (e: seq<Effect>)
    ensures |e| == if persistSucceeds then 2 else 1
    ensures e[0] == Persisted(WithDashboard(p, device, dashboard), persistSucceeds)
    ensures persistSucceeds ==> e[1] == Dispatched(updateAction(dashboard))
  {
    [Persisted(WithDashboard(p, device, dashboard), persistSucceeds)]
    + (if persistSucceeds then [Dispatched(updateAction(dashboard))] else [])
  }

  /**
   * The dashboard thunk persists the merged preferences first; it dispatches
   * its action exactly when persisting succeeds, and never before it.
   */
  lemma DashboardThunkOrdering(
    p: Preferences, device: Device, dashboard: DashboardPreferences,
    updateAction: DashboardPreferences -> UserAction, persistSucceeds: bool)
    ensures var e := DashboardThunkEffects(p, device, dashboard, updateAction, persistSucceeds);
      && e[0] == Persisted(WithDashboard(p, device, dashboard), persistSucceeds)
      && DispatchFollowsSuccessfulPersist(e)
      && ((exists i :: 0 <= i < |e| && e[i].Dispatched?) <==> persistSucceeds)
      && (persistSucceeds ==> e == e[..1] + [Dispatched(updateAction(dashboard))])
  {
    var e := DashboardThunkEffects(p, device, dashboard, updateAction, persistSucceeds);
    if persistSucceeds {
      assert e[1].Dispatched?;
    }
  }

  /** The mobile and computer wrappers pick their own device entry and action. */
  lemma DashboardWrappers(p: Preferences, dashboard: DashboardPreferences)
    ensures DashboardThunkEffects(p, Mobile, dashboard, UpdateMobileDashboardPreferences, true)
            == [Persisted(p.(mobile := p.mobile.(dashboard := dashboard)), true),
                Dispatched(MobileDashboardPreferencesUpdate(dashboard))]
    ensures DashboardThunkEffects(p, Computer, dashboard, UpdateComputerDashboardPreferences, true)
            == [Persisted(p.(computer := p.computer.(dashboard := dashboard)), true),
                Dispatched(ComputerDashboardPreferencesUpdate(dashboard))]
  {
  }

  /** The effects of updateThemePreferencesThunk: dispatch first, then persist what the store then holds. */
  function ThemeThunkEffects(
    p: Preferences, theme: Theme, reduce: (Preferences, UserAction) -> Preferences, persistSucceeds: bool)
    : (e: seq<Effect>)
    ensures |e| == 2
    ensures e[0] == Dispatched(ThemePreferencesUpdate(theme))
    ensures e[1] == Persisted(WithTheme(reduce(p, ThemePreferencesUpdate(theme)), theme), persistSucceeds)
  {
    var afterDispatch := reduce(p, UpdateThemePreferences(theme));
    [Dispatched(UpdateThemePreferences(theme)), Persisted(WithTheme(afterDispatch, theme), persistSucceeds)]
  }

  /**
   * The theme thunk dispatches before it persists, so the theme action reaches
   * the store whether or not persisting then fails.
   */
  lemma ThemeThunkOrdering(
    p: Preferences, theme: Theme, reduce: (Preferences, UserAction) -> Preferences, persistSucceeds: bool)
    ensures var e := ThemeThunkEffects(p, theme, reduce, persistSucceeds);
      && e[0] == Dispatched(ThemePreferencesUpdate(theme))
      && e[1].Persisted? && e[1].preferences.theme == theme
      && e[1] == Persisted(WithTheme(reduce(p, e[0].action), theme), persistSucceeds)
      && !DispatchFollowsSuccessfulPersist(e)
    ensures ThemeThunkEffects(p, theme, reduce, true)[0] == ThemeThunkEffects(p, theme, reduce, false)[0]
  {
  }

  /** The Redux store as the thunks see it: the user's preferences and the effects so far. */
  class Store {
    var preferences: Preferences
    var effects: seq<Effect>
    const reduce: (Preferences, UserAction) -> Preferences

    constructor (preferences: Preferences, reduce: (Preferences, UserAction) -> Preferences)
      ensures this.preferences == preferences && effects == [] && this.reduce == reduce
    {
      this.preferences := preferences;
      effects := [];
      this.reduce := reduce;
    }

    method Dispatch(action: UserAction)
      modifies this
      ensures preferences == reduce(old(preferences), action)
      ensures effects == old(effects) + [Dispatched(action)]
    {
      preferences := reduce(preferences, action);
      effects := effects + [Dispatched(action)];
    }

    /** updatePreference: the outcome of the network call is decided outside the model. */
    method UpdatePreference(updated: Preferences, succeeds: bool) returns (ok: bool)
      modifies this
      ensures ok == succeeds && preferences == old(preferences)
      ensures effects == old(effects) + [Persisted(updated, succeeds)]
    {
      effects := effects + [Persisted(updated, succeeds)];
      ok := succeeds;
    }

    method UpdateDashboardPreferencesThunk(
      device: Device, newDashboardPreference: DashboardPreferences,
      updateAction: DashboardPreferences -> UserAction, persistSucceeds: bool)
      modifies this
      ensures effects == old(effects) + DashboardThunkEffects(old(preferences), device, newDashboardPreference, updateAction, persistSucceeds)
      ensures preferences == if persistSucceeds then reduce(old(preferences), updateAction(newDashboardPreference))
                             else old(preferences)
    {
      var currentPreferences := preferences;
      var updatedPreferences := WithDashboard(currentPreferences, device, newDashboardPreference);
      var ok := UpdatePreference(updatedPreferences, persistSucceeds);
      if ok {
        Dispatch(updateAction(newDashboardPreference));
      }
    }

    method UpdateMobileDashboardPreferencesThunk(newDashboardPreference: DashboardPreferences, persistSucceeds: bool)
      modifies this
      ensures effects == old(effects) + DashboardThunkEffects(old(preferences), Mobile, newDashboardPreference, UpdateMobileDashboardPreferences, persistSucceeds)
      ensures preferences == if persistSucceeds then reduce(old(preferences), MobileDashboardPreferencesUpdate(newDashboardPreference))
                             else old(preferences)
    {
      UpdateDashboardPreferencesThunk(Mobile, newDashboardPreference, UpdateMobileDashboardPreferences, persistSucceeds);
    }

    method UpdateComputerDashboardPreferencesThunk(newDashboardPreference: DashboardPreferences, persistSucceeds: bool)
      modifies this
      ensures effects == old(effects) + DashboardThunkEffects(old(preferences), Computer, newDashboardPreference, UpdateComputerDashboardPreferences, persistSucceeds)
      ensures preferences == if persistSucceeds then reduce(old(preferences), ComputerDashboardPreferencesUpdate(newDashboardPreference))
                             else old(preferences)
    {
      UpdateDashboardPreferencesThunk(Computer, newDashboardPreference, UpdateComputerDashboardPreferences, persistSucceeds);
    }

    method UpdateThemePreferencesThunk(theme: Theme, persistSucceeds: bool)
      modifies this
      ensures effects == old(effects) + ThemeThunkEffects(old(preferences), theme, reduce, persistSucceeds)
      ensures preferences == reduce(old(preferences), ThemePreferencesUpdate(theme))
      ensures effects[|effects| - 1] == Persisted(WithTheme(preferences, theme), persistSucceeds)
    {
      Dispatch(UpdateThemePreferences(theme));
      var currentPreferences := preferences;
      var updatedPreferences := WithTheme(currentPreferences, theme);
      var _ := UpdatePreference(updatedPreferences, persistSucceeds);
    }

    method UpdatePreferencesOnlineThunk(persistSucceeds: bool)
      modifies this
      ensures effects == old(effects) + [Persisted(old(preferences), persistSucceeds)]
      ensures preferences == old(preferences)
    {
      var currentPreferences := preferences;
      var _ := UpdatePreference(currentPreferences, persistSucceeds);
    }
  }
}
