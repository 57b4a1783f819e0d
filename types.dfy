/**
 * The descriptors of `src/types.ts`: tools, apps and their auth configuration. Zod schemas and the
 * `executeAsync` handler are not values the bridge inspects; a handler's result enters the model as
 * an explicit outcome (see `Messages.HandlerOutcome`). React components are named by `Component`.
 */
module Types {
  import opened Wrappers

  /** A React display component, identified by name. */
  datatype Component = Component(name: string)

  /** `AuthConfig`: a provider and its ordered scopes. */
  datatype AuthConfig = AuthConfig(provider: string, scopes: seq<string>)

  /** `OrriTool`: identity, description and the optional preflight/postflight displays. */
  datatype Tool = Tool(
    id: string,
    name: string,
    description: string,
    preflightDisplay: Option<Component>,
    postflightDisplay: Option<Component>)

  /** `OrriApp`: the application handed to `initialize`. */
  datatype App = App(
    id: string,
    name: string,
    description: string,
    version: string,
    tools: seq<Tool>,
    auth: Option<AuthConfig>)
}
