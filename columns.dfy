/** The per-segment column maps of the inserter: segment element key to
    table column. */
module Columns {

  function AmtColumns(): map<string, string> {
    map["1" := "amount_qualifier_code", "2" := "monetary_amount", "3" := "credit_debit_flag"]
  }

  function BprColumns(): map<string, string> {
    map["1" := "transaction_handling_code", "2" := "payment_amount", "3" := "credit_debit_flag",
        "4" := "payment_method_code", "5" := "payment_format_code", "6" := "odfi_id_number_qualifier",
        "7" := "odfi_id_number", "8" := "payer_financial_asset_type", "9" := "payer_account_number",
        "10" := "originating_company_id", "11" := "originating_company_supplemental_code",
        "12" := "rdfi_id_number_qualifier", "13" := "rdfi_id_number", "14" := "receiver_asset_type",
        "15" := "receiver_account_number ", "16" := "payment_effective_date", "17" := "reason_for_payment",
        "18" := "id_number_qualifier_for_returns", "19" := "dfi_id_number_for_returns",
        "20" := "asset_type_for_return_account", "21" := "account_number_for_return"]
  }

  function CasColumns(): map<string, string> {
    map["1" := "claim_adjustment_group_code",
        "2" := "claim_adjustment_reason_code_1", "3" := "adjustment_amount_1", "4" := "units_of_service_adjusted_1",
        "5" := "claim_adjustment_reason_code_2", "6" := "adjustment_amount_2", "7" := "units_of_service_adjusted_2",
        "8" := "claim_adjustment_reason_code_3", "9" := "adjustment_amount_3", "10" := "units_of_service_adjusted_3",
        "11" := "claim_adjustment_reason_code_4", "12" := "adjustment_amount_4", "13" := "units_of_service_adjusted_4",
        "14" := "claim_adjustment_reason_code_5", "15" := "adjustment_amount_5", "16" := "units_of_service_adjusted_5",
        "17" := "claim_adjustment_reason_code_6", "18" := "adjustment_amount_6", "19" := "units_of_service_adjusted_6"]
  }

  /** The CLP map exactly as the source writes it: elements 1 to 9 are keyed
      "01" to "09", keys the tokenizer never produces. */
  function ClpColumnsAsWritten(): map<string, string> {
    map["01" := "claim_submitter_id", "02" := "claim_status_code", "03" := "submitted_charges",
        "04" := "amount_paid", "05" := "patient_responsibility", "06" := "claim_filing_indicator_code",
        "07" := "payer_internal_control_number", "08" := "facility_code_value",
        "09" := "claim_frequency_type_code", "10" := "patient_discharge_status", "12" := "drg_weight",
        "13" := "discharge_fraction", "14" := "patient_authorization_to_coordinate_benefits",
        "15" := "exchange_rate", "16" := "source_of_payment_typology_code"]
  }

  /** The CLP map keyed the way the tokenizer names elements ("1" to "9"). */
  function ClpColumns(): map<string, string> {
    map["1" := "claim_submitter_id", "2" := "claim_status_code", "3" := "submitted_charges",
        "4" := "amount_paid", "5" := "patient_responsibility", "6" := "claim_filing_indicator_code",
        "7" := "payer_internal_control_number", "8" := "facility_code_value",
        "9" := "claim_frequency_type_code", "10" := "patient_discharge_status", "12" := "drg_weight",
        "13" := "discharge_fraction", "14" := "patient_authorization_to_coordinate_benefits",
        "15" := "exchange_rate", "16" := "source_of_payment_typology_code"]
  }

  function CurColumns(): map<string, string> {
    map["1" := "entity_id_code_1", "2" := "currency_code_1", "3" := "exchange_rate_1",
        "4" := "entity_id_code_2", "5" := "currency_code_2", "6" := "currency_market_exchange_code",
        "7" := "date_time_qualifier_1", "8" := "date_1", "9" := "time_1",
        "10" := "date_time_qualifier_2", "11" := "date_2", "12" := "time_2",
        "13" := "date_time_qualifier_3", "14" := "date_3", "15" := "time_3",
        "16" := "date_time_qualifier_4", "17" := "date_4", "18" := "time_4",
        "19" := "date_time_qualifier_5", "20" := "date_5", "21" := "time_5"]
  }

  function DtmColumns(): map<string, string> {
    map["1" := "date_time_qualifier", "2" := "date", "3" := "time", "4" := "time_code",
        "5" := "date_time_period_format_qualifier", "6" := "date_time_period"]
  }

  function K3Columns(): map<string, string> {
    map["1" := "fixed_format_information", "2" := "record_format_code"]
  }

  function LqColumns(): map<string, string> {
    map["1" := "code_list_qualifier_code", "2" := "industry_code"]
  }

  function MiaColumns(): map<string, string> {
    map["1" := "covered_days", "2" := "pps_operating_outlier_amount", "3" := "lifetime_psychiatric_days",
        "4" := "drg_amount", "5" := "remittance_advice_remark_code_1", "6" := "disproportionate_share_amount",
        "7" := "msp_pass_through_amount", "8" := "pps_capital_amount", "9" := "pps_capital_federal_specific_drg",
        "10" := "pps_capital_hospital_specific_drg", "11" := "pps_capital_disproportionate_share_hospital_drg",
        "12" := "old_capital_amount", "13" := "pps_capital_indirect_medical_education_claim",
        "14" := "hospital_specific_drg_amount", "15" := "cost_report_days",
        "16" := "federal_specific_drg_amount", "17" := "pps_capital_outlier_amount",
        "18" := "indirect_teaching_amount", "19" := "professional_component_non_payable_amount_billed",
        "20" := "remittance_advice_remark_code_2", "21" := "remittance_advice_remark_code_3",
        "22" := "remittance_advice_remark_code_4", "23" := "remittance_advice_remark_code_5",
        "24" := "capital_exception_amount"]
  }

  function MoaColumns(): map<string, string> {
    map["1" := "reimbursement_rate", "2" := "hcpcs_payable_amount", "3" := "remittance_advice_remark_code_1",
        "4" := "remittance_advice_remark_code_2", "5" := "remittance_advice_remark_code_3",
        "6" := "remittance_advice_remark_code_4", "7" := "remittance_advice_remark_code_5",
        "8" := "esrd_payment_amount", "9" := "professional_component_non_payable_billed"]
  }

  function N1Columns(): map<string, string> {
    map["1" := "entity_identifier", "2" := "entity_name", "3" := "id_code_qualifier",
        "4" := "identification_code", "5" := "entity_relationship_code", "6" := "related_entity_identifier_code"]
  }

  function N2Columns(): map<string, string> {
    map["1" := "additional_name_1", "2" := "additional_name_2"]
  }

  function N3Columns(): map<string, string> {
    map["1" := "address_information_1", "2" := "address_information_2"]
  }

  function N4Columns(): map<string, string> {
    map["1" := "city_name", "2" := "state_or_province_code", "3" := "postal_code", "4" := "country_code",
        "5" := "location_qualifier", "6" := "location_id", "7" := "country_subdivision_code",
        "8" := "postal_code_formatted"]
  }

  function Nm1Columns(): map<string, string> {
    map["1" := "entity_id_code", "2" := "entity_type_qualifier", "3" := "last_name_or_organization_name",
        "4" := "first_name", "5" := "middle_name", "6" := "name_prefix", "7" := "name_suffix",
        "8" := "id_code_qualifier", "9" := "id_code", "10" := "entity_relationship_code",
        "11" := "entity_id_code_2", "12" := "last_name_or_organization_name_2"]
  }

  function NteColumns(): map<string, string> {
    map["1" := "note_reference_code", "2" := "description"]
  }

  function PerColumns(): map<string, string> {
    map["1" := "contact_function_code", "2" := "name", "3" := "communication_number_qualifier_1",
        "4" := "communication_number_1", "5" := "communication_number_qualifier_2",
        "6" := "communication_number_2", "7" := "communication_number_qualifier_3",
        "8" := "communication_number_3", "9" := "contact_inquiry_ref"]
  }

  function QtyColumns(): map<string, string> {
    map["1" := "quantity_qualifier", "2" := "quantity", "4" := "free_form_information"]
  }

  function RasColumns(): map<string, string> {
    map["1" := "amount_of_adjustment", "2" := "claim_adjustment_group_code", "4" := "units_of_service_adjusted"]
  }

  function RdmColumns(): map<string, string> {
    map["1" := "report_transmission_code", "2" := "third_party_remittance_processor", "3" := "communication_number"]
  }

  function RefColumns(): map<string, string> {
    map["1" := "id_qualifier", "2" := "reference_id", "3" := "description"]
  }

  function StColumns(): map<string, string> {
    map["1" := "id_code", "2" := "transaction_set_control", "3" := "convention_reference"]
  }

  function TrnColumns(): map<string, string> {
    map["1" := "trace_type_code", "2" := "transaction_id", "3" := "organization_id", "4" := "subdivision_id"]
  }

  function Ts2Columns(): map<string, string> {
    map["1" := "total_drg_amount", "2" := "total_federal_specific_amount", "3" := "total_hospital_specific_amount",
        "4" := "total_disproportionate_share_amount", "5" := "total_capital_amount",
        "6" := "total_medical_education_amount", "7" := "total_number_of_outlier_days",
        "8" := "total_outlier_amount", "9" := "total_cost_outlier_amount", "10" := "drg_average_length_of_stay",
        "11" := "total_number_of_discharges", "12" := "total_number_of_cost_report_days",
        "13" := "total_number_of_covered_days", "14" := "total_number_of_noncovered_days",
        "15" := "total_msp_pass_through_for_non_medicare", "16" := "average_drg_weight",
        "17" := "total_pps_capital_federal_specific_drg_amount",
        "18" := "total_pps_capital_hospital_specific_drg_amount",
        "19" := "total_pps_disproportionate_share_hospital_drg_amount"]
  }

  function Ts3Columns(): map<string, string> {
    map["1" := "provider_number", "2" := "facility_code_value", "3" := "fiscal_year_end_date",
        "4" := "number_of_claims", "5" := "total_reported_charges", "6" := "total_covered_charge",
        "7" := "total_noncovered_charges", "8" := "total_denied_charges", "9" := "total_provider_payment",
        "10" := "total_interest_paid", "11" := "total_contractual_adjustment",
        "12" := "total_gramm_rudman_reduction", "13" := "total_msp_primary_payer_amount",
        "14" := "total_blood_deductible_amount", "15" := "non_lab_charges", "16" := "total_coinsurance_amount",
        "17" := "hcpcs_reported_charges", "18" := "total_hcpcs_payable_amount", "19" := "total_deductible_amount",
        "20" := "total_professional_component_amount", "21" := "total_msp_patient_liability_met",
        "22" := "total_patient_reimbursement", "23" := "total_pip_number_of_claims", "24" := "total_pip_adjustment"]
  }

  /** The C001 map exactly as the source writes it: components 1 to 9 are
      keyed "01" to "09", while the K3/QTY builders name them "1" to "9". */
  function C001ColumnsAsWritten(): map<string, string> {
    map["01" := "units_1", "02" := "exponent_1", "03" := "multiplier_1",
        "04" := "units_2", "05" := "exponent_2", "06" := "multiplier_2",
        "07" := "units_3", "08" := "exponent_3", "09" := "multiplier_3",
        "10" := "units_4", "11" := "exponent_4", "12" := "multiplier_4",
        "13" := "units_5", "14" := "exponent_5", "15" := "multiplier_5"]
  }

  /** The C001 map keyed the way the builders name components. */
  function C001Columns(): map<string, string> {
    map["1" := "units_1", "2" := "exponent_1", "3" := "multiplier_1",
        "4" := "units_2", "5" := "exponent_2", "6" := "multiplier_2",
        "7" := "units_3", "8" := "exponent_3", "9" := "multiplier_3",
        "10" := "units_4", "11" := "exponent_4", "12" := "multiplier_4",
        "13" := "units_5", "14" := "exponent_5", "15" := "multiplier_5"]
  }

  function C022Columns(): map<string, string> {
    map["1" := "health_care_code_list_qualifier_code", "2" := "health_care_industry_code",
        "3" := "health_care_date_time_period_format_qualifier", "4" := "health_care_date_time_period",
        "5" := "health_care_monetary_amount", "6" := "health_care_quantity",
        "7" := "health_care_code_list_version_id", "8" := "code_ending_value",
        "9" := "code_source_959_present_on_admission_indicator", "10" := "health_care_industry_attribute_code"]
  }

  function C040Columns(): map<string, string> {
    map["1" := "id_qualifier_1", "2" := "id_1", "3" := "id_qualifier_2", "4" := "id_2",
        "5" := "id_qualifier_3", "6" := "id_3"]
  }

  function C058Columns(): map<string, string> {
    map["1" := "adjustment_reason_code", "2" := "adjustment_code_list_qualifier_code",
        "3" := "industry_code_1", "4" := "industry_code_2", "5" := "industry_code_3",
        "6" := "industry_code_4", "7" := "industry_code_5"]
  }
}
