/** `sendWeatherNotification`: how one notification reaches the user. The
    platform's capabilities and the outcome of a delivery attempt are inputs. */
module Notify {

  /** A notification as the app hands it over: the city as title, the
      message as body, and its tag ("search", "rain", "temp"). */
  datatype Notification = Notification(title: string, body: string, tag: string)

  datatype Channel =
    | ServiceWorkerChannel   // registration.showNotification on the controlling worker
    | StandardNotification   // new Notification(...) from the page
    | InPageBanner           // displayNotificationUI: a banner inserted in the page

  /** The only permission value under which a platform channel is tried. */
  const GRANTED := "granted"

  /** The channels tried, in order, for one notification. `supported` is
      whether the Notification API exists, `permission` the value of
      `Notification.permission`, `hasController` whether a service worker
      controls the page, and `deliveryFailed` whether the platform channel
      that is tried rejects or throws.
      The banner is never tried before a platform channel, is the last resort
      after a failure, and no more than one platform channel is ever tried. */
  function DeliveryAttempts(supported: bool, permission: string, hasController: bool, deliveryFailed: bool)
    : (tried: seq<Channel>)
    ensures 1 <= |tried| <= 2
    ensures tried[0] == InPageBanner <==> !supported || permission != GRANTED
    ensures tried[0] == ServiceWorkerChannel <==> supported && permission == GRANTED && hasController
    ensures |tried| == 2 <==> tried[0] != InPageBanner && deliveryFailed
    ensures |tried| == 2 ==> tried[1] == InPageBanner
  {
    if !supported || permission != GRANTED then
      [InPageBanner]
    else
      var platform := if hasController then ServiceWorkerChannel else StandardNotification;
      if deliveryFailed then [platform, InPageBanner] else [platform]
  }

  /** The channel that finally shows the notification: a notification is
      never lost, and the banner shows it exactly when no platform channel
      could. */
  function DeliveredBy(supported: bool, permission: string, hasController: bool, deliveryFailed: bool)
    : (c: Channel)
    ensures c == InPageBanner <==> !supported || permission != GRANTED || deliveryFailed
    ensures c == ServiceWorkerChannel <==> supported && permission == GRANTED && hasController && !deliveryFailed
    ensures c == StandardNotification <==> supported && permission == GRANTED && !hasController && !deliveryFailed
  {
    var tried := DeliveryAttempts(supported, permission, hasController, deliveryFailed);
    tried[|tried| - 1]
  }

  /** How the global `Notification` looks to the page: not declared at all,
      declared but not a usable constructor, or present. The support test
      holds only for `Present`. */
  datatype NotificationApi = Undeclared | Unusable | Present

  /** What one call of `sendWeatherNotification` does as written. */
  datatype SendResult =
    | ReferenceError                 // the call throws before any channel is tried
    | Tried(channels: seq<Channel>)  // the channels tried, in order

  /** `sendWeatherNotification` as written: its first step reads
      `Notification?.permission`, and optional chaining does not guard a
      name that is not declared, so without a `Notification` global the
      call throws and nothing is shown. Otherwise the channels tried are
      those of the channel choice. */
  function Send(api: NotificationApi, permission: string, hasController: bool, deliveryFailed: bool)
    : (o: SendResult)
    ensures o.ReferenceError? <==> api == Undeclared
    ensures api == Unusable ==> o == Tried([InPageBanner])
    ensures api == Present ==> o == Tried(DeliveryAttempts(true, permission, hasController, deliveryFailed))
  {
    if api == Undeclared then ReferenceError
    else Tried(DeliveryAttempts(api == Present, permission, hasController, deliveryFailed))
  }

  /** Without a `Notification` global nothing reaches the user, although the
      channel choice sends an unsupported platform to the banner. */
  lemma UndeclaredApiShowsNothing(permission: string, hasController: bool, deliveryFailed: bool)
    ensures Send(Undeclared, permission, hasController, deliveryFailed) == ReferenceError
    ensures DeliveryAttempts(false, permission, hasController, deliveryFailed) == [InPageBanner]
  {
  }

  /** Without permission the controller makes no difference: the banner is
      the only channel tried. */
  lemma DeniedGoesStraightToBanner(supported: bool, permission: string, hasController: bool, deliveryFailed: bool)
    requires permission != GRANTED
    ensures DeliveryAttempts(supported, permission, hasController, deliveryFailed) == [InPageBanner]
  {
  }
}
