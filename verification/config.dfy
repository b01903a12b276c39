/** The configuration constants the modelled handlers read. */
module Config {

  /** `MAX_CONTENT_LENGTH`: 10 MB. */
  const MAX_CONTENT_LENGTH: nat := 10 * 1024 * 1024

  /** `ALLOWED_EXTENSIONS` for receipt images. */
  const ALLOWED_EXTENSIONS: set<string> := {"png", "jpg", "jpeg", "gif", "webp"}
}
