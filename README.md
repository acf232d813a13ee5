# Outbound email request of the newsletter service

The newsletter service sends its confirmation emails through a transactional-email
HTTP API. `EmailClient` (`src/email_client.rs`) holds the provider's base URL, the
sender address and the API token. `send_email` turns a recipient, a subject and an
HTML and a text body into one `POST {base_url}/mail/send`. The request carries an
`Authorization: Bearer <token>` header and a JSON body of type `SendEmailRequest`.

This project models that client as pure Dafny values and functions:

- `Wrappers.dfy`: `Option` and `Result`.
- `Domain.dfy`: `SubscriberEmail`, read only through `AsRef`.
- `Json.dfy`: the JSON value tree that serde's derived `Serialize` produces, with
  fields kept in declaration order. It also holds the generic helpers used to
  serialise and decode a `Vec`, look up a field and collect every object key.
- `EmailClient.dfy`: the client, the four serialised structs, their JSON encoding
  and a decoder for it, the request `send_email` builds, and how the result of
  the one HTTP call becomes the function's `Result`.

What is proved:
- The URL is the base URL followed by `/mail/send`, and the base URL can be
  recovered from it.
- The `Authorization` value is `Bearer ` followed by the token, and the token can
  be recovered from it.
- The content type is `text/plain` exactly when the HTML body is empty, and
  `text/html` otherwise.
- The body has one personalization with one recipient, the configured sender,
  the subject unchanged and one content block whose value is the HTML body.
- The text body never reaches the request.
- The bodies `send_email` can build are exactly those of that shape.
- The JSON encoding decodes back to the body.
- The JSON uses only the key names `personalization`, `to`, `email`, `from`,
  `subject`, `content`, `type` and `value`. A built request uses all of them, and
  `type_` never appears.
- The result is `Ok(())` whenever the provider answered, whatever the status,
  and `Err` only when reqwest's `send()` fails: a transport error, or a URL or
  header value it rejects.

Two consequences of the code are worth stating plainly:
- A provider reply with a non-success status is not an error: no status check
  follows the awaited `send()` (src/email_client.rs:56-65).
- The content block always carries the HTML body. When that body is empty the
  block is `""` typed `text/plain`, even if a text body was given
  (src/email_client.rs:35-53).

## Model

| member | source | states |
|---|---|---|
| EmailClient.EmailClient.New | src/email_client.rs:14-25 | the client holds exactly the given base URL, sender and token, unchanged |
| EmailClient.EmailClient.NewCapturesEverything | src/email_client.rs:6-11 | every client value is `New` of its own three settings: nothing else is configurable |
| EmailClient.MailSendUrl | src/email_client.rs:34 | the URL starts with the base URL and the rest is exactly `/mail/send` |
| EmailClient.MailSendUrlInverse | src/email_client.rs:34 | stripping `/mail/send` from a URL gives base URL `b` if and only if the URL was built from `b` |
| EmailClient.TextType | src/email_client.rs:35-39 | the type is `text/plain` if and only if the HTML body is empty, and `text/html` if and only if it is not |
| EmailClient.BearerAuthorization | src/email_client.rs:58-61 | the header value is `Bearer ` followed by the token |
| EmailClient.BearerInverse | src/email_client.rs:58-61 | the bearer token parsed from a header value is `t` if and only if the value was built from `t` |
| EmailClient.RequestBody | src/email_client.rs:40-54 | one personalization with one `to` whose email is the recipient's; `from` is the sender; subject unchanged; one content block whose value is the HTML body, typed `text/plain` when that body is empty and `text/html` otherwise |
| EmailClient.SendEmailBodies | src/email_client.rs:40-54 | a body has that one-recipient, one-block, sender-and-type-consistent shape if and only if it is built by `RequestBody` for some recipient, subject and HTML body |
| EmailClient.EmailClient.BuildRequest | src/email_client.rs:27-62 | the URL yields the base URL back, the header yields the token back, the body has the send-email shape and gives back recipient, subject and HTML body, and the JSON payload is exactly the derived serialisation of the body, which decodes back to it |
| EmailClient.TextContentDropped | src/email_client.rs:32-54 | two calls that differ only in the text body build the same request |
| EmailClient.SendResult | src/email_client.rs:56-65 | `Ok` if and only if `send()` produced a response; its error is returned unchanged otherwise |
| EmailClient.EmailClient.SendEmail | src/email_client.rs:27-66 | the one request made is the built request; the result is `Ok` if and only if the provider answered, and otherwise carries the error `send()` returned |
| EmailClient.StatusNeverInspected | src/email_client.rs:56-65 | two replies with different statuses give the same outcome, and a 500 reply gives `Ok(())` |
| Json.MapSeq | src/email_client.rs:69-92 | each `Vec` field serialises to an array of the same length whose i-th element encodes the i-th element |
| EmailClient.RequestFieldLookups | src/email_client.rs:69-75 | the serialised body stores `personalization`, `from`, `subject` and `content` under those keys |
| EmailClient.PersonalizationRoundTrip | src/email_client.rs:77-85 | a serialised personalization decodes back to itself |
| EmailClient.ContentRoundTrip | src/email_client.rs:87-92 | a serialised content block, stored under `type` and `value`, decodes back to itself |
| EmailClient.RequestRoundTrip | src/email_client.rs:69-92 | any serialised `SendEmailRequest` decodes back to itself, so the encoding loses nothing |
| EmailClient.KeyJsonKeys | src/email_client.rs:82-85 | a serialised `SendEmailKey` uses only the wire key names |
| EmailClient.PersonalizationKeys | src/email_client.rs:77-85 | a serialised personalization uses only the wire key names |
| EmailClient.RequestKeys | src/email_client.rs:87-92 | any serialised body uses only the eight wire key names; `type_` is written as `type` and never appears |
| EmailClient.BuiltPayloadKeys | src/email_client.rs:40-62 | the payload of a built request uses exactly the eight wire key names |

## Left out

- The HTTP POST itself (`reqwest::Client`, `.send().await`, the async runtime) is network I/O. The model takes how the call ended as an input: a response with some status, or an error from `send()`. That error stands for every failure `send()` reports: a transport error, a `base_url` that does not parse as a URL (src/email_client.rs:57), or a token that is not a valid header value (src/email_client.rs:58-61).
- The `http_client` field and `Client::new()` hold a connection pool and are not modelled.
- The token's `secrecy::Secret` wrapper and its never-log intent are not modelled. The token is a plain string.
- serde_json's text encoding (quoting, escaping, whitespace) is not modelled. The body is modelled as the JSON value serde derives from it, with the key names as written.
- `SubscriberEmail` parsing and validation live in `crate::domain`, which is not part of this model. The type is a wrapper whose `as_ref` gives back the address.
- The `Content-Type: application/json` header that `.json(...)` adds is not modelled.
- The subscription submit and confirm workflow, input validation, token generation and database writes are not part of this model. Their source is not among the modelled files.
- src/startup.rs only wires routes and the server, and is not modelled.
- The unit test at src/email_client.rs:105-124 only checks that a request reaches a mock server, and is not modelled.
