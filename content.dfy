/** The generated-content record that both the backend's `/generate` handler
    and the client's local fallback return. */
module Content {

  /** An optional value; `None` stands for JavaScript's `null` and Python's `None`. */
  datatype Option<+T> = None | Some(value: T)

  /** One generation result. The platform and content type are kept as the
      strings the request carried (`"LINKEDIN"`, `"IMAGE"`, ...), because
      neither side checks them against a closed set. */
  datatype GeneratedContent = GeneratedContent(
    id: string,
    platform: string,
    contentType: string,
    prompt: string,
    text: string,
    mediaUrl: Option<string>,
    videoUrl: Option<string>
  )

  const IMAGE: string := "IMAGE"
  const VIDEO: string := "VIDEO"
  const TEXT: string := "TEXT"
}
