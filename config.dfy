/**
 * The language-pair selector that opens `get_translation_status`,
 * `get_translation` and `doTranslate`: from a direction name it picks the
 * model name sent with a job, the host of the translation service and the
 * shared secret (the "master key").
 */
module Config {

  datatype ServiceConfig = ServiceConfig(modelSend: string, host: string, masterKey: string)

  const EsEuModel := "generic_es2eu"
  const EsEuHost := "eseu.itzuli.euskadi.eus"
  const EuEsModel := "generic_eu2es"
  const EuEsHost := "eues.itzuli.euskadi.eus"

  /** The direction hard-coded in each of the three request functions. */
  const ActiveModel := "eu2es"

  /**
   * The selector. Only the exact name "es2eu" selects Spanish to Basque;
   * every other name, including the hard-coded one, falls to the Basque to
   * Spanish branch. Both branches carry the same shared secret, which is a
   * parameter here rather than the literal in the code.
   */
  function SelectConfig(model: string, sharedSecret: string): (c: ServiceConfig)
    ensures c.masterKey == sharedSecret
    ensures c.host == EsEuHost <==> model == "es2eu"
    ensures c.modelSend == EsEuModel <==> model == "es2eu"
    ensures c.host == EuEsHost <==> model != "es2eu"
    ensures c.modelSend == EuEsModel <==> model != "es2eu"
  {
    if model == "es2eu" then
      ServiceConfig(EsEuModel, EsEuHost, sharedSecret)
    else
      ServiceConfig(EuEsModel, EuEsHost, sharedSecret)
  }

  /** A configuration always sends the model whose direction its host serves. */
  predicate Consistent(c: ServiceConfig) {
    (c.host == EsEuHost && c.modelSend == EsEuModel) ||
    (c.host == EuEsHost && c.modelSend == EuEsModel)
  }

  /**
   * Whatever the direction name, the selector never pairs a host with the
   * other direction's model, and the configuration the code actually uses is
   * the Basque to Spanish one.
   */
  lemma SelectorConsistent(model: string, sharedSecret: string)
    ensures Consistent(SelectConfig(model, sharedSecret))
    ensures SelectConfig(ActiveModel, sharedSecret) == ServiceConfig(EuEsModel, EuEsHost, sharedSecret)
  {
  }
}
