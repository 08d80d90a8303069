/** The parts of a backend (model) configuration that the modelled code reads. */
module Config {
  import opened Wrappers

  /** The `template:` section of a model configuration. */
  datatype TemplateConfig = TemplateConfig(
    chat: string,
    chatMessage: string,
    completion: string,
    edit: string,
    functions: string,
    /** nil unless the configuration sets a join character */
    joinChatMessagesByCharacter: Option<string>,
    jinjaTemplate: bool)

  datatype BackendConfig = BackendConfig(
    name: string,
    model: string,
    systemPrompt: string,
    roles: map<string, string>,
    grammar: string,
    templateConfig: TemplateConfig)

  /** Go's map index: a missing key reads as the empty string. */
  function RoleFor(roles: map<string, string>, role: string): string {
    if role in roles then roles[role] else ""
  }
}
