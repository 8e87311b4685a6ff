/**
 * The exceptions the core raises or lets through, by cause. Where Ruby only
 * has a message string, the cause carries what the message is built from.
 */
module Errors {
  import opened Values

  datatype Error =
      /** ArgumentError "Invalid role: R. Valid roles are: system, assistant, user". */
    | InvalidRole(role: Value)
      /** ActiveModel::UnknownAttributeError, for the first of `among` in the hash's order. */
    | UnknownAttribute(among: set<string>)
      /** NoMethodError: `receiver` has no method `name`. */
    | NoMethod(name: string, receiver: Value)
      /** TypeError raised by a Ruby core method. */
    | TypeMismatch(operation: string, operand: Value)
      /** NotImplementedError "Subclasses must implement the 'generate' method". */
    | NotImplemented
      /** JSON::ParserError (or any error) from the JSON decoder. */
    | JsonError(text: string)
      /** An exception raised by a remote client, with its message. */
    | Remote(message: string)
      /** RuntimeError "Configuration not found for provider: X". */
    | ConfigurationNotFound(provider: string)
      /** RuntimeError "Missing generation provider for S" (S is `service.inspect`). */
    | MissingProvider(service: Value)
      /** NameError from `const_get` of a provider class that does not exist. */
    | NameNotFound(constant: string)
      /** RuntimeError "Generation method cannot be nil". */
    | NilGenerationMethod
      /** RuntimeError "Invalid generation method :m". */
    | InvalidGenerationMethod(requested: Value)
      /** RuntimeError raised by `enqueue_generation` once the prompt was touched. */
    | PromptAccessedBeforeEnqueue
      /** GenerationProviderError, raised with the message of `cause`. */
    | ProviderError(cause: Error)
}
