/** Shapes shared by the PayPal HTTP client and the payment provider. */
module PaypalTypes {
  import opened Js

  /**
   * The adapter's options: API credentials, the sandbox switch, the capture
   * mode and the webhook id. Each may be missing from the configuration.
   */
  datatype Options = Options(
    clientId: Option<string>,
    clientSecret: Option<string>,
    sandbox: Flag,
    capture: Flag,
    authWebhookId: Option<string>)
}
