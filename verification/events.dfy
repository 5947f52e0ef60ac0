/** The `webhook:sent` notification the server pushes to the dashboard and the
    webhook log displays. */
module Events {
  import opened Wrappers

  /** The payload the test route sends and the log shows. */
  datatype Payload = TestData(message: string, timestamp: string)

  /** `status` is set on success, `error` on failure. */
  datatype WebhookSent = WebhookSent(
    success: bool,
    status: Option<int>,
    error: Option<string>,
    url: string,
    event: string,
    payload: Payload)
}
